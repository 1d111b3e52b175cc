/** The behaviour tests/test_model.py checks, replayed against the
    contracts of `ChatManager` and `Chat`: each test method starts from an
    empty file system, creates the test room as the tests' setUp does,
    and asserts what the test asserts.  Steps that later tests share are
    methods of their own whose `requires` give the file they start from. */
module ChatScenarios {
  import opened Wrappers
  import opened Messages
  import opened ChatErrors
  import opened Storage
  import opened ChatRoom
  import opened ChatManagement

  /** setUp: create the room and open it. */
  method SetUp() returns (fs: FileSystem, manager: ChatManager, chat: Chat)
    ensures fresh(fs) && fresh(chat) && chat.fs == fs
    ensures manager.fs == fs && chat.historyFile == manager.GetChatHistoryFile("test_chat")
    ensures fs.files == map[chat.historyFile := EmptyRoomFile]
    ensures chat.participants == [] && chat.messages == []
  {
    fs := new FileSystem(map[]);
    manager := new ChatManager(fs, ".");
    var created := manager.CreateChat("test_chat");
    var path := manager.GetChatHistoryFile("test_chat");
    var handle := Chat.Open(fs, path);
    chat := handle.value;
  }

  /** setUp followed by `add_participant("Alice")`, the start of most tests. */
  method SetUpWithAlice() returns (fs: FileSystem, chat: Chat)
    ensures fresh(fs) && fresh(chat) && chat.fs == fs
    ensures fs.files == map[chat.historyFile := SavedFile(["Alice"], [])]
  {
    var manager;
    fs, manager, chat := SetUp();
    var _ := chat.AddParticipant("Alice");
  }

  /** test_add_and_get_participant */
  method AddAndGetParticipant()
  {
    var fs, manager, chat := SetUp();
    var _ := chat.AddParticipant("Alice");
    var ps := chat.GetParticipants();
    assert ps == Ok(["Alice"]);
    var _ := chat.AddParticipant("Alice");
    ps := chat.GetParticipants();
    assert ps == Ok(["Alice"]);
  }

  /** test_remove_participant */
  method RemoveParticipants()
  {
    var fs, chat := SetUpWithAlice();
    LoadAfterSave(["Alice"], []);
    var _ := chat.AddParticipant("Bob");
    assert "Bob" !in ["Alice"] && ["Alice"] + ["Bob"] == ["Alice", "Bob"];
    assert fs.files == map[chat.historyFile := SavedFile(["Alice", "Bob"], [])];
    RemoveAliceThenCharlie(chat);
  }

  /** test_remove_participant, from the room the two adds leave: Alice
      goes, Bob stays, and removing an unknown name changes nothing. */
  method RemoveAliceThenCharlie(chat: Chat)
    requires chat.fs.files == map[chat.historyFile := SavedFile(["Alice", "Bob"], [])]
    modifies chat, chat.fs
  {
    LoadAfterSave(["Alice", "Bob"], []);
    var _ := chat.RemoveParticipant("Alice");
    assert WithoutParticipant(["Alice", "Bob"], "Alice") == ["Bob"];
    assert chat.fs.files == map[chat.historyFile := SavedFile(["Bob"], [])];
    LoadAfterSave(["Bob"], []);
    var ps := chat.GetParticipants();
    assert ps == Ok(["Bob"]);
    var _ := chat.RemoveParticipant("Charlie");
    ps := chat.GetParticipants();
    assert ps == Ok(["Bob"]);
  }

  /** test_add_message_success */
  method AddMessageSuccess(now: int)
  {
    var fs, chat := SetUpWithAlice();
    var m := FirstMessage(chat, "Hello, world!", now);
    assert m.name == "Alice" && m.content == "Hello, world!";
    LoadAfterSave(["Alice"], [m]);
    var ms := chat.GetMessages();
    assert ms == Ok([m]);
  }

  /** The first message of a room whose one participant is Alice: it gets
      id 1, her name, the given content and the clock's time, and is
      saved as the only message. */
  method FirstMessage(chat: Chat, content: string, now: int) returns (m: Message)
    requires chat.fs.files == map[chat.historyFile := SavedFile(["Alice"], [])]
    modifies chat, chat.fs
    ensures m == Message(1, "Alice", now, content)
    ensures chat.fs.files == map[chat.historyFile := SavedFile(["Alice"], [m])]
  {
    LoadAfterSave(["Alice"], []);
    var r := chat.AddMessage("Alice", content, now);
    m := r.value;
  }

  /** test_add_message_unapproved_participant */
  method AddMessageByStranger(now: int)
  {
    var fs, manager, chat := SetUp();
    var r := chat.AddMessage("Eve", "Sneaky message", now);
    assert r == Err(NotApprovedParticipant("Eve"));
    var ms := chat.GetMessages();
    assert ms == Ok([]);
  }

  /** test_sequential_timestamps: whatever the clock says at each call,
      the second message comes strictly after the first. */
  method SequentialTimestamps(now1: int, now2: int)
  {
    var fs, chat := SetUpWithAlice();
    var first := FirstMessage(chat, "First message", now1);
    var second := SecondMessage(chat, first, "Second message", now2);
    assert second.timestamp > first.timestamp;
  }

  /** A second message after `first`: it gets id 2 and a later
      timestamp, and the room is saved with both, in that order. */
  method SecondMessage(chat: Chat, first: Message, content: string, now: int) returns (second: Message)
    requires chat.fs.files == map[chat.historyFile := SavedFile(["Alice"], [first])]
    requires first.name == "Alice" && first.id == 1
    modifies chat, chat.fs
    ensures second.id == 2 && second.timestamp > first.timestamp && second.content == content
    ensures chat.fs.files == map[chat.historyFile := SavedFile(["Alice"], [first, second])]
  {
    LoadAfterSave(["Alice"], [first]);
    var r := chat.AddMessage("Alice", content, now);
    second := r.value;
    AddedMessageStaysLast([first], "Alice", content, now);
    assert [first] + [second] == [first, second];
  }

  /** test_edit_message */
  method EditMessageScenario(now: int)
  {
    var fs, chat := SetUpWithAlice();
    var m := FirstMessage(chat, "Original content", now);
    EditThenLookUp(chat, m);
  }

  /** test_edit_message, from a room holding one message: after an edit,
      the lookup by id finds the new content. */
  method EditThenLookUp(chat: Chat, message: Message)
    requires chat.fs.files == map[chat.historyFile := SavedFile(["Alice"], [message])]
    modifies chat, chat.fs
  {
    LoadAfterSave(["Alice"], [message]);
    var edited := chat.EditMessage(message.id, "Edited content");
    assert edited == Ok(());
    var expected := message.(content := "Edited content");
    assert chat.fs.files == map[chat.historyFile := SavedFile(["Alice"], [expected])];
    LoadAfterSave(["Alice"], [expected]);
    var found := chat.GetMessageById(message.id);
    assert found == Ok(Some(expected));
  }

  /** test_edit_non_existent_message: an empty room has no message 999. */
  method EditUnknownMessage()
  {
    var fs, manager, chat := SetUp();
    var r := chat.EditMessage(999, "This should fail");
    assert r == Err(MessageNotFound(999));
  }

  /** test_delete_message */
  method DeleteMessageScenario(now1: int, now2: int)
  {
    var fs, chat := SetUpWithAlice();
    var keep := FirstMessage(chat, "Keep this one", now1);
    var doomed := SecondMessage(chat, keep, "Delete this one", now2);
    DeleteSecondOfTwo(chat, keep, doomed);
  }

  /** test_delete_message, from a room holding two messages: deleting the
      second leaves exactly the first. */
  method DeleteSecondOfTwo(chat: Chat, keep: Message, doomed: Message)
    requires chat.fs.files == map[chat.historyFile := SavedFile(["Alice"], [keep, doomed])]
    requires keep.id != doomed.id
    modifies chat, chat.fs
  {
    LoadAfterSave(["Alice"], [keep, doomed]);
    assert HasMessage([keep, doomed], doomed.id) by {
      assert [keep, doomed][1].id == doomed.id;
    }
    var deleted := chat.DeleteMessage(doomed.id);
    assert deleted == Ok(());
    assert WithoutId([keep, doomed], doomed.id) == [keep];
    assert chat.fs.files == map[chat.historyFile := SavedFile(["Alice"], [keep])];
    LoadAfterSave(["Alice"], [keep]);
    var ms := chat.GetMessages();
    assert ms == Ok([keep]);
  }

  /** test_delete_non_existent_message */
  method DeleteUnknownMessageScenario(now: int)
  {
    var fs, chat := SetUpWithAlice();
    var m := FirstMessage(chat, "A message", now);
    DeleteUnknownMessage(chat, m);
  }

  /** test_delete_non_existent_message, from a room holding one message:
      deleting id 999 fails and the room keeps its message. */
  method DeleteUnknownMessage(chat: Chat, message: Message)
    requires chat.fs.files == map[chat.historyFile := SavedFile(["Alice"], [message])]
    requires message.id != 999
    modifies chat, chat.fs
  {
    LoadAfterSave(["Alice"], [message]);
    var deleted := chat.DeleteMessage(999);
    assert deleted == Err(MessageNotFound(999));
    var ms := chat.GetMessages();
    assert ms == Ok([message]);
  }

  /** test_data_persistence */
  method DataPersistence(now: int)
  {
    var fs, chat := SetUpWithAlice();
    var m := FirstMessage(chat, "This is a test.", now);
    Reopen(fs, chat.historyFile, m);
  }

  /** test_data_persistence, from the saved room: a second handle on the
      same file sees the participant and the message. */
  method Reopen(fs: FileSystem, path: string, message: Message)
    requires fs.files == map[path := SavedFile(["Alice"], [message])]
  {
    LoadAfterSave(["Alice"], [message]);
    var reopened := Chat.Open(fs, path);
    var ps := reopened.value.GetParticipants();
    assert ps == Ok(["Alice"]);
    var ms := reopened.value.GetMessages();
    assert ms == Ok([message]);
  }
}
