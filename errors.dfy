/** The failures the chat storage engine reports to its caller.
    In the source every one of them is an exception; the two that the
    source raises on purpose are `ValueError`s, `MalformedRecord` stands
    for the `KeyError`/`ValueError` that escapes from decoding a message
    record with a missing key or an unreadable timestamp. */
module ChatErrors {

  datatype Error =
    | MalformedRecord                    // a stored message record cannot be decoded
    | NotApprovedParticipant(name: string) // add_message by a non-participant
    | MessageNotFound(id: int)           // edit_message / delete_message with an unknown id
    | ChatAlreadyExists(chatName: string) // create_chat on an existing file
}
