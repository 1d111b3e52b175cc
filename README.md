# Chat-room storage engine, modelled in Dafny

This project models the storage engine of a small chat application. The engine has two parts.

- **`Chat`** (model/chat.py) holds one room's participant list and message list. Every public operation follows the same order. It reloads both lists from the room's history file. It applies its change. After an add, remove, edit or delete that finds its target, it writes the whole state back, re-sorting the messages by timestamp first. An edit is saved even when the new content equals the old.
- **`ChatManager`** (model/chat_manager.py) names a room's history file `"chat_history_" + name + ".json"` inside one history directory. It lists the rooms by stripping that prefix and suffix from directory entries. It creates a room by writing an empty history file, unless one already exists.

The model is built against a shared `FileSystem` object whose `files` field maps paths to file states.

- A file state is one of three things.
  - `Missing`: no file at that path.
  - `Corrupt`: the text is not JSON.
  - `Stored(participants, messages)`: a JSON object. Each of its two keys may be absent, and each message record may lack any of its four keys.
- `Chat` is a class.
  - Its fields are `participants: seq<string>` and `messages: seq<Message>`.
  - Every method does load, change, save against that map, as the source does.
  - Each method's `ensures` gives the whole new state as a function of the old file: the two lists and the file map.
- `ChatManager` is a class over the same file system. Its naming convention is a set of string functions.

Files:

- `message.dfy` holds `Message` and the stable sort by timestamp.
- `storage.dfy` holds file states, decoding and encoding, and `FileSystem`.
- `chat.dfy` holds the room operations as functions, their lemmas, and the `Chat` class.
- `chat_manager.dfy` holds naming, listing and creating rooms.
- `scenarios.dfy` replays each test method of tests/test_model.py against the contracts, starting from an empty file system and the tests' setUp.
- `wrappers.dfy` and `errors.dfy` hold `Option`/`Result` and the error kinds.

Inputs that come from outside the program are parameters:

- `datetime.now()` is `now`, an integer count of microseconds.
- `os.listdir(history_dir)` is `listing`. The predicate `ListsDirectory` ties a listing to the file map.

Facts about model/chat.py and model/chat_manager.py that shape the model:

- `Chat` has no insert-after-id operation. presenter/presenter.py:66 calls an `insert_message` that model/chat.py does not define, and the save re-sorts by timestamp in any case.
- A new timestamp that would not come after the last message's is bumped to one microsecond past it (model/chat.py:89-91).
- `get_messages` returns the messages sorted by timestamp, not in stored order (model/chat.py:75).
- Ids are `max + 1` (model/chat.py:81). Deleting the message with the highest id lets that id be issued again.
- Room names are used in file names as given, with no sanitising (model/chat_manager.py:23).
- The author field is called `name`, as in model/message.py.

tests/test_model.py and presenter/presenter.py construct `Chat(name, manager)`, but `Chat.__init__` takes a history-file path (model/chat.py:10). The model opens a `Chat` on the path that `ChatManager.GetChatHistoryFile` returns.

## Model

| member | source | states |
|---|---|---|
| Messages.SortByTimestamp | model/chat.py:43 | the messages saved are in non-decreasing timestamp order and are a permutation of the messages before the sort |
| Messages.SortIsStable | model/chat.py:43 | messages that share a timestamp keep their relative order through the sort |
| Messages.SortOfSortedIsIdentity | model/chat.py:75 | a message list already in timestamp order is returned unchanged by the sort |
| Messages.SortIsIdempotent | model/chat.py:43 | sorting a sorted list again changes nothing |
| Messages.SortKeepsDistinctIds | model/chat.py:43 | if no two messages shared an id before the sort, none do after it |
| Storage.DecodeMessage | model/chat.py:29-34 | a record decodes exactly when all four keys are usable, and the message carries exactly those four values |
| Storage.DecodeMessages | model/chat.py:28-35 | the list decodes exactly when every record does; the result has the same length and each entry is its record decoded |
| Storage.EncodeMessages | model/chat.py:46-53 | one record per message, in order, with all four keys present |
| Storage.DecodeEncodeMessages | model/chat.py:28-53 | decoding the records written for a message list gives back that list |
| Storage.LoadedParticipants | model/chat.py:23-27 | the participants are the stored list when the key is present, otherwise empty |
| Storage.Load | model/chat.py:22-38 | a missing or non-JSON file loads as an empty room; an absent key loads as an empty list; the load fails, with the distinct error MalformedRecord, exactly when some stored message record cannot be decoded; otherwise every record becomes its message |
| Storage.SavedFile | model/chat.py:44-54 | the written file holds the participants as given and one record per message, in order, each decoding to its message |
| Storage.Exists | model/chat_manager.py:28 | something exists at a path exactly when the map holds a file state other than `Missing` there |
| Storage.LoadAfterSave | model/chat.py:22-55 | a fresh load of a saved file gives back exactly the participants and messages that were saved |
| ChatRoom.WithParticipant | model/chat.py:63-64 | a non-empty name not yet present is appended at the end; an empty or present name leaves the list unchanged; the names present are the old ones plus the given name when it is non-empty; a duplicate-free list stays duplicate-free |
| ChatRoom.AddParticipantIsIdempotent | model/chat.py:63 | adding the same name twice leaves the same list as adding it once |
| ChatRoom.WithoutParticipant | model/chat.py:69-70 | an absent name leaves the list unchanged; otherwise the list loses exactly one occurrence of the name |
| ChatRoom.RemoveParticipantAt | model/chat.py:70 | removal takes out the first occurrence of the name and keeps every other participant in order |
| ChatRoom.RemoveParticipantFromSet | model/chat.py:69-70 | in a duplicate-free list, removal leaves exactly the other names and no duplicates, so adds and removes act as set operations |
| ChatRoom.MaxId | model/chat.py:81 | the largest id is at least every id present and is the id of some message |
| ChatRoom.NextMessageId | model/chat.py:77-81 | the next id is 1 in an empty room and one more than an existing id otherwise, and it is larger than every id present |
| ChatRoom.NewTimestamp | model/chat.py:88-91 | the new timestamp is never before `now` and is strictly after the last message's timestamp; it is `now` unless the last message's timestamp plus one microsecond is needed |
| ChatRoom.NewMessage | model/chat.py:88-98 | the new message carries the given name and content, an id above every existing id, and a timestamp after the last message's |
| ChatRoom.AddedMessageKeepsIdsDistinct | model/chat.py:93-100 | appending the new message and sorting on save keeps all ids pairwise distinct |
| ChatRoom.AddedMessageStaysLast | model/chat.py:88-100 | in a room stored in timestamp order, the new message is still last after the sort on save |
| ChatRoom.FirstIndexWithId | model/chat.py:105-108 | no index when no message has the id; otherwise the index of a message with that id such that no earlier message has it |
| ChatRoom.EditChangesOnlyContent | model/chat.py:112-119 | the edit fails exactly when no message has the id; otherwise it sets the content of the first message with that id, the message a lookup returns; that message keeps its id, name and timestamp, every other message is unchanged, and a later lookup finds the edited message at the same place |
| ChatRoom.Edited | model/chat.py:113-119 | the edit finds nothing exactly when no message has the id; otherwise the list keeps its length |
| ChatRoom.EditKeepsOrderAndIds | model/chat.py:118-120 | an edit saved back keeps a time-ordered room in the same order and keeps ids distinct |
| ChatRoom.WithoutId | model/chat.py:126-129 | the remaining messages are exactly those with another id; the count is unchanged exactly when no message had the id, and then the list is the same |
| ChatRoom.DeleteKeepsMultiplicity | model/chat.py:127 | every message with another id is kept as many times as the list held it; none with the id is kept |
| ChatRoom.WithoutIdAppend | model/chat.py:127 | deleting from a concatenation deletes from each part in place, so the kept messages stay in their order |
| ChatRoom.DeleteCommutesWithStamp | model/chat.py:127 | deleting, then taking the messages of one timestamp, equals taking them first and deleting from them |
| ChatRoom.DeleteKeepsSorted | model/chat.py:127 | deleting from a list in timestamp order leaves it in timestamp order |
| ChatRoom.DeleteKeepsOrder | model/chat.py:127-130 | after the delete and the sort on save, the messages of each timestamp are the room's earlier ones of that timestamp, less the deleted ones, in their earlier order; a time-ordered room is saved in exactly the order the delete leaves |
| ChatRoom.DeleteKeepsIdsDistinct | model/chat.py:127-130 | deleting and then sorting on save keeps ids distinct |
| ChatRoom.ReloadAfterSave | model/chat.py:40-75 | after a save, a fresh load gives the saved participants and the time-sorted messages, and `get_messages` returns that same sequence |
| ChatRoom.IndexOfId | model/chat.py:105-116 | the search loop stops at the first message with the id, or finds none |
| ChatRoom.Chat.constructor | model/chat.py:10-13 | the new object holds the path and starts with empty lists |
| ChatRoom.Chat.Open | model/chat.py:10-15 | opening performs one load: the object holds the loaded room, or opening fails with the load's error |
| ChatRoom.Chat.LoadData | model/chat.py:17-38 | the participants become the file's; the messages become the file's, or keep their old value when a record is malformed, because the participants are assigned before the messages are decoded |
| ChatRoom.Chat.SaveData | model/chat.py:40-55 | the messages are sorted in place, and the history file is rewritten, and no other file is touched |
| ChatRoom.Chat.GetParticipants | model/chat.py:57-59 | returns the freshly loaded participants and writes nothing |
| ChatRoom.Chat.AddParticipant | model/chat.py:61-65 | a non-empty absent name is appended and saved; otherwise the lists are the loaded ones and nothing is written |
| ChatRoom.Chat.RemoveParticipant | model/chat.py:67-71 | a present name loses its first occurrence and the room is saved, with the messages only re-sorted; an absent name changes nothing and writes nothing |
| ChatRoom.Chat.GetMessages | model/chat.py:73-75 | returns the loaded messages sorted by timestamp and writes nothing |
| ChatRoom.Chat.AddMessage | model/chat.py:83-101 | a name outside the loaded participants fails with NotApprovedParticipant and writes nothing; otherwise exactly one new message is appended, saved and returned |
| ChatRoom.Chat.GetMessageById | model/chat.py:103-108 | returns the first loaded message with the id, or none, and writes nothing |
| ChatRoom.Chat.EditMessage | model/chat.py:110-122 | an unknown id fails with MessageNotFound and writes nothing; otherwise the content of the first message with the id is changed and the room saved |
| ChatRoom.Chat.DeleteMessage | model/chat.py:124-130 | an unknown id fails with MessageNotFound and writes nothing; otherwise every message with the id is removed and the room saved |
| ChatManagement.HistoryFileName | model/chat_manager.py:23 | a room's file name is the prefix, the name and the suffix, with the prefix at the start and the suffix at the end |
| ChatManagement.ChatNameOf | model/chat_manager.py:17 | with Python's slice rules, the stripped name is the text between the prefix's length and the suffix's, or empty when the entry is shorter than both together |
| ChatManagement.FilterAcceptsExactlyRoomFiles | model/chat_manager.py:16 | the filter accepts an entry exactly when it is the file name of some room |
| ChatManagement.ChatNames | model/chat_manager.py:12-19 | at most one room per entry, and each listed room's file name is among the entries |
| ChatManagement.DirectoryPart | model/chat_manager.py:23 | the directory followed by at most one '/', ending in '/' unless the directory is empty |
| ChatManagement.JoinPath | model/chat_manager.py:23 | the path ends with the file name; an absolute file name is the whole path; otherwise what comes before it is the directory part |
| ChatManagement.AcceptedEntryDecomposes | model/chat_manager.py:16-17 | an entry that passes the filter is long enough that prefix and suffix cannot overlap, and it is the file name of its stripped name |
| ChatManagement.NamingRoundTrip | model/chat_manager.py:16-23 | the file name of any room passes the listing filter and strips back to the room's name |
| ChatManagement.ChatNamesMembership | model/chat_manager.py:12-19 | a name is listed exactly when its file name is among the directory entries; every other entry is ignored |
| ChatManagement.ChatNamesConcat | model/chat_manager.py:14-19 | rooms are listed in directory-listing order |
| ChatManagement.ExistingRoomIsListed | model/chat_manager.py:12-23 | a room whose file exists in the directory, and whose name contains no '/', appears in the room list |
| ChatManagement.CreatedRoomIsEmpty | model/chat_manager.py:31-32 | the file a create writes loads as a room with no participants and no messages |
| ChatManagement.ChatManager.constructor | model/chat_manager.py:8-10 | the manager holds the file system and the history directory |
| ChatManagement.ChatManager.GetChatHistoryFile | model/chat_manager.py:21-23 | the path is a directory part that does not depend on the name, followed by the room's file name |
| ChatManagement.ChatManager.DistinctRoomsDistinctFiles | model/chat_manager.py:21-23 | two different room names never map to the same history file |
| ChatManagement.ChatManager.GetChatList | model/chat_manager.py:12-19 | the loop collects the stripped names of the accepted entries, in listing order |
| ChatManagement.ChatManager.CreateChat | model/chat_manager.py:25-32 | if anything exists at the room's path, the create fails with ChatAlreadyExists and the file map is unchanged; otherwise exactly that path now holds an empty room |
| ChatScenarios.SetUp | tests/test_model.py:17-26 | creating the test room and opening it gives an empty room whose file is the only file |
| ChatScenarios.SetUpWithAlice | tests/test_model.py:17-26 | after setUp and adding Alice, the room file holds Alice and no messages |
| ChatScenarios.AddAndGetParticipant | tests/test_model.py:34-42 | Alice is the one participant after one add and after a duplicate add |
| ChatScenarios.RemoveParticipants | tests/test_model.py:44-50 | after adding Alice and Bob the file holds both, in that order |
| ChatScenarios.RemoveAliceThenCharlie | tests/test_model.py:48-54 | removing Alice leaves only Bob; removing the unknown Charlie leaves Bob |
| ChatScenarios.AddMessageSuccess | tests/test_model.py:56-63 | the returned message has Alice's name and the content, and is the one message listed |
| ChatScenarios.FirstMessage | tests/test_model.py:58-59 | the first message in a room with one participant gets id 1, that participant's name, the given content and the clock's time, and becomes the only saved message |
| ChatScenarios.AddMessageByStranger | tests/test_model.py:65-69 | a message from Eve, who never joined, fails with NotApprovedParticipant and leaves no messages |
| ChatScenarios.SequentialTimestamps | tests/test_model.py:71-78 | for any two clock readings, the second message's timestamp is later than the first's |
| ChatScenarios.SecondMessage | tests/test_model.py:71-78 | a second message in a one-message room gets id 2 and a later timestamp, whatever `now` is, and is saved after the first |
| ChatScenarios.EditMessageScenario | tests/test_model.py:80-87 | the edit test runs from setUp through the first message |
| ChatScenarios.EditThenLookUp | tests/test_model.py:84-87 | after an edit, the lookup by id finds the message with the new content |
| ChatScenarios.EditUnknownMessage | tests/test_model.py:89-92 | editing id 999 in an empty room fails with MessageNotFound |
| ChatScenarios.DeleteMessageScenario | tests/test_model.py:94-101 | the delete test runs from setUp through two messages |
| ChatScenarios.DeleteSecondOfTwo | tests/test_model.py:99-101 | deleting the second of two messages leaves exactly the first |
| ChatScenarios.DeleteUnknownMessageScenario | tests/test_model.py:103-106 | the unknown-delete test runs from setUp through one message |
| ChatScenarios.DeleteUnknownMessage | tests/test_model.py:107-109 | deleting id 999 fails with MessageNotFound and the one message remains |
| ChatScenarios.DataPersistence | tests/test_model.py:111-114 | the persistence test runs from setUp through one message |
| ChatScenarios.Reopen | tests/test_model.py:116-120 | a second handle on the saved file sees Alice and the one message |

## Left out

- JSON text, `json.load`/`json.dump` and ISO-8601 formatting are not modelled. A file is a structured record, and a timestamp is an integer number of microseconds. A timestamp string that `datetime.fromisoformat` rejects is an unusable key, like a missing one.
- JSON that parses but is not an object with list values is not modelled. The source would raise `AttributeError` or `TypeError` on it.
- A missing message key raises `KeyError`, which the source does not catch. The model reports it as the separate error `MalformedRecord`, not as an empty room.
- Read failures other than a missing file are not modelled (a directory at the path, missing permission).
- Write failures are not modelled. `SaveData` and `CreateChat` always succeed, and a write is one map update. The model does not claim that the source's writes are atomic: `open(..., 'w')` truncates before it writes.
- Processes running at the same time, and the last-writer-wins races between them, are not modelled. Each method runs as one step on the file map.
- Aliasing is not modelled. `get_participants` and `get_message_by_id` return live objects in the source; the model returns values.
- NewTimestamp: does not model the `OverflowError` that `datetime` raises past its maximum year, because timestamps are unbounded integers.
- `os.listdir` is the `listing` parameter. Its `FileNotFoundError` for a missing directory is not modelled.
- `os.path.join` is the POSIX string rule in `JoinPath`.
- The default arguments of the two constructors are not modelled.
- No property says ids are never reused. The code recomputes `max + 1`, so an id can come back after the message with the highest id is deleted.
- The presenter, the HTTP server, the GUI and main.py are not part of this model. Neither are the `insert_message` and `get_chat` calls the presenter makes; model/chat.py and model/chat_manager.py define no such methods.
