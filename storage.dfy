/** The room history file, seen as a structured record rather than JSON
    text, and the file system that maps paths to such files.

    A room file holds an object with two keys, "participants" (a list of
    names) and "messages" (a list of records with keys "id", "name",
    "timestamp" and "content").  Loading tolerates a missing file, a file
    that is not JSON and an absent top-level key; it does not tolerate a
    message record with a missing key. */
module Storage {
  import opened Wrappers
  import opened Messages
  import opened ChatErrors

  /** One element of the stored "messages" list.  A key that is absent
      is `None`; so is a "timestamp" that `datetime.fromisoformat`
      rejects. */
  datatype MessageRecord = MessageRecord(
    id: Option<int>, name: Option<string>, timestamp: Option<int>, content: Option<string>)

  /** What a path holds: nothing, text that is not JSON, or a JSON
      object whose two keys may each be absent. */
  datatype FileState =
    | Missing
    | Corrupt
    | Stored(participants: Option<seq<string>>, messages: Option<seq<MessageRecord>>)

  /** The participants and messages of one room, as the engine holds them. */
  datatype Room = Room(participants: seq<string>, messages: seq<Message>)

  /** The file that `create_chat` writes: both lists present and empty. */
  const EmptyRoomFile: FileState := Stored(Some([]), Some([]))

  /** Decodes one record; fails if any of the four keys is unusable. */
  function DecodeMessage(rec: MessageRecord): (r: Option<Message>)
    ensures r.Some? <==> rec.id.Some? && rec.name.Some? && rec.timestamp.Some? && rec.content.Some?
    ensures r.Some? ==>
              r.value.id == rec.id.value && r.value.name == rec.name.value
              && r.value.timestamp == rec.timestamp.value && r.value.content == rec.content.value
  {
    match (rec.id, rec.name, rec.timestamp, rec.content)
    case (Some(id), Some(name), Some(timestamp), Some(content)) =>
      Some(Message(id, name, timestamp, content))
    case _ => None
  }

  function EncodeMessage(m: Message): MessageRecord
  {
    MessageRecord(Some(m.id), Some(m.name), Some(m.timestamp), Some(m.content))
  }

  /** Decodes a list of records in order; one bad record fails the whole list. */
  function DecodeMessages(recs: seq<MessageRecord>): (r: Option<seq<Message>>)
    ensures r.Some? <==> forall i :: 0 <= i < |recs| ==> DecodeMessage(recs[i]).Some?
    ensures r.Some? ==> |r.value| == |recs|
    ensures r.Some? ==> forall i :: 0 <= i < |recs| ==> DecodeMessage(recs[i]) == Some(r.value[i])
  {
    if recs == [] then Some([])
    else
      match (DecodeMessage(recs[0]), DecodeMessages(recs[1..]))
      case (Some(m), Some(ms)) =>
        assert forall i :: 1 <= i < |recs| ==> recs[i] == recs[1..][i - 1];
        Some([m] + ms)
      case (None, _) => None
      case (_, None) =>
        assert forall i :: 1 <= i < |recs| ==> recs[i] == recs[1..][i - 1];
        None
  }

  function EncodeMessages(ms: seq<Message>): (r: seq<MessageRecord>)
    ensures |r| == |ms|
    ensures forall i :: 0 <= i < |ms| ==> r[i] == EncodeMessage(ms[i])
  {
    if ms == [] then [] else [EncodeMessage(ms[0])] + EncodeMessages(ms[1..])
  }

  /** Decoding what was encoded gives back the same messages. */
  lemma {:induction false} DecodeEncodeMessages(ms: seq<Message>)
    ensures DecodeMessages(EncodeMessages(ms)) == Some(ms)
  {
    if ms != [] {
      var recs := EncodeMessages(ms);
      var tail := EncodeMessages(ms[1..]);
      assert recs == [EncodeMessage(ms[0])] + tail;
      assert recs[1..] == tail;
      DecodeEncodeMessages(ms[1..]);
      assert DecodeMessages(recs) == Some([ms[0]] + ms[1..]);
      assert ms == [ms[0]] + ms[1..];
    }
  }

  /** The participants `_load_data` assigns: the stored list, or empty
      when the file is missing, not JSON, or has no "participants" key. */
  function LoadedParticipants(f: FileState): (r: seq<string>)
    ensures f.Stored? && f.participants.Some? ==> r == f.participants.value
    ensures !(f.Stored? && f.participants.Some?) ==> r == []
  {
    match f
    case Stored(Some(ps), _) => ps
    case _ => []
  }

  /** The whole of `_load_data`: the room a file holds, or
      `MalformedRecord` when a message record cannot be decoded. */
  function Load(f: FileState): (r: Result<Room, Error>)
    ensures (f.Missing? || f.Corrupt?) ==> r == Ok(Room([], []))
    ensures r.Err? <==> f.Stored? && f.messages.Some?
                        && exists i :: 0 <= i < |f.messages.value| && DecodeMessage(f.messages.value[i]).None?
    ensures r.Err? ==> r.error == MalformedRecord
    ensures r.Ok? ==> r.value.participants == (if f.Stored? && f.participants.Some? then f.participants.value else [])
    ensures r.Ok? && f.Stored? && f.messages.Some? ==>
              |r.value.messages| == |f.messages.value|
              && forall i :: 0 <= i < |f.messages.value| ==> DecodeMessage(f.messages.value[i]) == Some(r.value.messages[i])
    ensures r.Ok? && !(f.Stored? && f.messages.Some?) ==> r.value.messages == []
  {
    match f
    case Stored(_, Some(recs)) =>
      (match DecodeMessages(recs)
       case Some(ms) => Ok(Room(LoadedParticipants(f), ms))
       case None => Err(MalformedRecord))
    case _ => Ok(Room(LoadedParticipants(f), []))
  }

  /** The file `_save_data` writes for the given lists. */
  function SavedFile(participants: seq<string>, messages: seq<Message>): (f: FileState)
    ensures f.Stored? && f.participants == Some(participants) && f.messages.Some?
    ensures |f.messages.value| == |messages|
    ensures forall i :: 0 <= i < |messages| ==> DecodeMessage(f.messages.value[i]) == Some(messages[i])
  {
    Stored(Some(participants), Some(EncodeMessages(messages)))
  }

  /** A saved room loads back exactly, participants and messages alike. */
  lemma LoadAfterSave(participants: seq<string>, messages: seq<Message>)
    ensures Load(SavedFile(participants, messages)) == Ok(Room(participants, messages))
  {
    DecodeEncodeMessages(messages);
  }

  /** Opening a path that is not in the map raises `FileNotFoundError`,
      which the engine treats like a missing file. */
  function Read(files: map<string, FileState>, path: string): FileState
  {
    if path in files then files[path] else Missing
  }

  /** `os.path.exists`: something, readable or not, is at `path`. */
  predicate Exists(files: map<string, FileState>, path: string)
    ensures Exists(files, path) <==> path in files && files[path] != Missing
  {
    Read(files, path) != Missing
  }

  /** The file system the engine's processes share. */
  class FileSystem {
    var files: map<string, FileState>

    constructor (files: map<string, FileState>)
      ensures this.files == files
    {
      this.files := files;
    }
  }
}
