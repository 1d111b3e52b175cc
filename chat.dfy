/** One chat room: its participant list and message list, reloaded from
    the room's history file before every operation and written back
    whole after every change (model/chat.py).

    The first half of the module states each operation's effect on the
    lists as a function and proves what it promises; the class `Chat`
    then performs the operations in the source's load, change, save
    order against a shared `FileSystem`. */
module ChatRoom {
  import opened Wrappers
  import opened Messages
  import opened ChatErrors
  import opened Storage

  // ---------------------------------------------------------------------
  // Participants

  ghost predicate NoDuplicates(ps: seq<string>)
  {
    forall i, j :: 0 <= i < j < |ps| ==> ps[i] != ps[j]
  }

  /** The participant list after `add_participant(name)`: a non-empty
      name that is not yet present goes at the end; otherwise the list
      is unchanged. */
  function WithParticipant(ps: seq<string>, name: string): (r: seq<string>)
    ensures forall x :: x in r <==> x in ps || (x == name && name != "")
    ensures |ps| <= |r| <= |ps| + 1 && r[..|ps|] == ps
    ensures name == "" || name in ps ==> r == ps
    ensures name != "" && name !in ps ==> r == ps + [name]
    ensures NoDuplicates(ps) ==> NoDuplicates(r)
  {
    if name != "" && name !in ps then ps + [name] else ps
  }

  /** Adding the same name twice is adding it once. */
  lemma AddParticipantIsIdempotent(ps: seq<string>, name: string)
    ensures WithParticipant(WithParticipant(ps, name), name) == WithParticipant(ps, name)
  {
  }

  /** The participant list after `list.remove(name)`: the first
      occurrence of `name` is taken out; without one, nothing changes. */
  function WithoutParticipant(ps: seq<string>, name: string): (r: seq<string>)
    ensures name !in ps ==> r == ps
    ensures multiset(r) == multiset(ps) - multiset{name}
  {
    if ps == [] then []
    else
      assert ps == [ps[0]] + ps[1..];
      if ps[0] == name then ps[1..] else [ps[0]] + WithoutParticipant(ps[1..], name)
  }

  /** Removal takes out exactly the first occurrence and keeps the order
      of everything else. */
  lemma {:induction false} RemoveParticipantAt(ps: seq<string>, name: string, i: nat)
    requires i < |ps| && ps[i] == name && name !in ps[..i]
    ensures WithoutParticipant(ps, name) == ps[..i] + ps[i + 1..]
  {
    if i > 0 {
      var tail := ps[1..];
      assert ps[0] == ps[..i][0];
      assert tail[..i - 1] == ps[..i][1..];
      RemoveParticipantAt(tail, name, i - 1);
      assert ps[..i] == [ps[0]] + tail[..i - 1];
      assert tail[i..] == ps[i + 1..];
    }
  }

  /** In a list without duplicates, removing a name removes it
      altogether, and the list stays free of duplicates: participants
      behave as a set under adds and removes. */
  lemma {:induction false} RemoveParticipantFromSet(ps: seq<string>, name: string)
    requires NoDuplicates(ps)
    ensures forall x :: x in WithoutParticipant(ps, name) <==> x in ps && x != name
    ensures NoDuplicates(WithoutParticipant(ps, name))
  {
    var r := WithoutParticipant(ps, name);
    if name in ps {
      var i :| 0 <= i < |ps| && ps[i] == name;
      DropMembers(ps, i);
      RemoveParticipantAt(ps, name, i);
      DropKeepsNoDuplicates(ps, i);
    }
  }

  /** Without duplicates, dropping position `i` drops exactly `ps[i]`. */
  lemma DropMembers(ps: seq<string>, i: nat)
    requires NoDuplicates(ps) && i < |ps|
    ensures ps[i] !in ps[..i]
    ensures forall x :: x in ps[..i] + ps[i + 1..] <==> x in ps && x != ps[i]
  {
    var before, after := ps[..i], ps[i + 1..];
    forall j | 0 <= j < |before| ensures before[j] != ps[i] { assert before[j] == ps[j]; }
    forall j | 0 <= j < |after| ensures after[j] != ps[i] { assert after[j] == ps[i + 1 + j]; }
    assert ps == before + [ps[i]] + after;
  }

  lemma DropKeepsNoDuplicates(ps: seq<string>, i: nat)
    requires NoDuplicates(ps) && i < |ps|
    ensures NoDuplicates(ps[..i] + ps[i + 1..])
  {
    var r := ps[..i] + ps[i + 1..];
    forall a, b | 0 <= a < b < |r| ensures r[a] != r[b] {
      var a' := if a < i then a else a + 1;
      var b' := if b < i then b else b + 1;
      assert r[a] == ps[a'] && r[b] == ps[b'];
    }
  }

  // ---------------------------------------------------------------------
  // New messages

  function MaxId(ms: seq<Message>): (r: int)
    requires ms != []
    ensures forall m :: m in ms ==> m.id <= r
    ensures exists m :: m in ms && m.id == r
  {
    if |ms| == 1 then ms[0].id
    else
      var rest := MaxId(ms[1..]);
      assert ms == [ms[0]] + ms[1..];
      if ms[0].id >= rest then ms[0].id else rest
  }

  /** `_get_next_message_id`: 1 for an empty room, otherwise one more
      than the largest id present, hence larger than every id present. */
  function NextMessageId(ms: seq<Message>): (r: int)
    ensures forall m :: m in ms ==> m.id < r
    ensures ms == [] ==> r == 1
    ensures ms != [] ==> exists m :: m in ms && r == m.id + 1
  {
    if ms == [] then 1 else MaxId(ms) + 1
  }

  /** The timestamp `add_message` gives a message created at `now`: the
      least instant not before `now` and strictly after the last
      message's timestamp. */
  function NewTimestamp(ms: seq<Message>, now: int): (t: int)
    ensures t >= now
    ensures ms != [] ==> t > ms[|ms| - 1].timestamp
    ensures t == now || (ms != [] && t == ms[|ms| - 1].timestamp + 1)
  {
    if ms != [] && now <= ms[|ms| - 1].timestamp then ms[|ms| - 1].timestamp + 1 else now
  }

  /** The message `add_message(name, content)` creates in a room holding `ms`. */
  function NewMessage(ms: seq<Message>, name: string, content: string, now: int): (m: Message)
    ensures m.name == name && m.content == content
    ensures forall x :: x in ms ==> x.id < m.id
    ensures ms != [] ==> m.timestamp > ms[|ms| - 1].timestamp
  {
    Message(NextMessageId(ms), name, NewTimestamp(ms, now), content)
  }

  /** Appending the new message and re-sorting on save keeps ids distinct. */
  lemma AddedMessageKeepsIdsDistinct(ms: seq<Message>, name: string, content: string, now: int)
    requires DistinctIds(ms)
    ensures DistinctIds(SortByTimestamp(ms + [NewMessage(ms, name, content, now)]))
  {
    var all := ms + [NewMessage(ms, name, content, now)];
    forall i, j | 0 <= i < |all| && 0 <= j < |all| && i != j ensures all[i].id != all[j].id {
      if i < |ms| && j < |ms| {
      } else if i < |ms| {
        assert all[i] in ms;
      } else {
        assert all[j] in ms;
      }
    }
    SortKeepsDistinctIds(all);
  }

  /** In a room stored in timestamp order the new message is the latest,
      so the sort on save leaves it at the end. */
  lemma AddedMessageStaysLast(ms: seq<Message>, name: string, content: string, now: int)
    requires SortedByTimestamp(ms)
    ensures SortByTimestamp(ms + [NewMessage(ms, name, content, now)]) == ms + [NewMessage(ms, name, content, now)]
  {
    var m := NewMessage(ms, name, content, now);
    var all := ms + [m];
    forall i, j | 0 <= i < j < |all| ensures all[i].timestamp <= all[j].timestamp {
      if j == |ms| {
        assert all[i].timestamp <= ms[|ms| - 1].timestamp;
      }
    }
    SortOfSortedIsIdentity(all);
  }

  // ---------------------------------------------------------------------
  // Finding, editing and deleting by id

  ghost predicate HasMessage(ms: seq<Message>, id: int)
  {
    exists i :: 0 <= i < |ms| && ms[i].id == id
  }

  /** The position of the first message with `id`, the one the search
      loops of `get_message_by_id` and `edit_message` stop at. */
  function FirstIndexWithId(ms: seq<Message>, id: int): (r: Option<nat>)
    ensures r.None? <==> !HasMessage(ms, id)
    ensures r.Some? ==>
              r.value < |ms| && ms[r.value].id == id
              && forall j :: 0 <= j < r.value ==> ms[j].id != id
  {
    if ms == [] then None
    else if ms[0].id == id then Some(0)
    else
      match FirstIndexWithId(ms[1..], id)
      case None =>
        assert forall i :: 1 <= i < |ms| ==> ms[i] == ms[1..][i - 1];
        None
      case Some(k) => Some(k + 1)
  }

  /** The message list after `edit_message(id, content)`, before the save
      re-sorts it; `None` when no message has `id`. */
  function Edited(ms: seq<Message>, id: int, content: string): (r: Option<seq<Message>>)
    ensures r.None? <==> !HasMessage(ms, id)
    ensures r.Some? ==> |r.value| == |ms|
  {
    match FirstIndexWithId(ms, id)
    case None => None
    case Some(k) => Some(ms[k := ms[k].(content := content)])
  }

  /** Editing changes the content of the message that a lookup by id
      returns and nothing else: that message keeps its id, name and
      timestamp, every other message is untouched, and a later lookup
      finds the edited message at the same place. */
  lemma EditChangesOnlyContent(ms: seq<Message>, id: int, content: string)
    ensures Edited(ms, id, content).None? <==> !HasMessage(ms, id)
    ensures HasMessage(ms, id) ==>
              var k := FirstIndexWithId(ms, id).value;
              var e := Edited(ms, id, content).value;
              && |e| == |ms|
              && e[k].id == ms[k].id && e[k].name == ms[k].name
              && e[k].timestamp == ms[k].timestamp && e[k].content == content
              && (forall j :: 0 <= j < |ms| && j != k ==> e[j] == ms[j])
              && FirstIndexWithId(e, id) == Some(k)
  {
    if HasMessage(ms, id) {
      var k := FirstIndexWithId(ms, id).value;
      var e := Edited(ms, id, content).value;
      assert forall j :: 0 <= j < k ==> e[j].id != id;
      assert !(FirstIndexWithId(e, id).Some? && FirstIndexWithId(e, id).value < k);
    }
  }

  /** Editing keeps ids and timestamps, so a room stored in timestamp
      order is saved back in the same order with distinct ids. */
  lemma EditKeepsOrderAndIds(ms: seq<Message>, id: int, content: string)
    requires HasMessage(ms, id)
    ensures SortedByTimestamp(ms) ==>
              SortByTimestamp(Edited(ms, id, content).value) == Edited(ms, id, content).value
    ensures DistinctIds(ms) ==> DistinctIds(SortByTimestamp(Edited(ms, id, content).value))
  {
    var e := Edited(ms, id, content).value;
    EditChangesOnlyContent(ms, id, content);
    assert forall j :: 0 <= j < |ms| ==> e[j].id == ms[j].id && e[j].timestamp == ms[j].timestamp;
    if SortedByTimestamp(ms) {
      SortOfSortedIsIdentity(e);
    }
    if DistinctIds(ms) {
      SortKeepsDistinctIds(e);
    }
  }

  /** The message list after `delete_message(id)`, before the save:
      every message with another id, in the same order. */
  function WithoutId(ms: seq<Message>, id: int): (r: seq<Message>)
    ensures forall m :: m in r <==> m in ms && m.id != id
    ensures |r| <= |ms|
    ensures |r| == |ms| <==> !HasMessage(ms, id)
    ensures |r| == |ms| ==> r == ms
  {
    if ms == [] then []
    else
      var rest := WithoutId(ms[1..], id);
      assert ms == [ms[0]] + ms[1..];
      assert forall i :: 1 <= i < |ms| ==> ms[i] == ms[1..][i - 1];
      if ms[0].id == id then rest else [ms[0]] + rest
  }

  /** Deleting keeps every other message as often as the list held it,
      and no message with `id` at all. */
  lemma {:induction false} DeleteKeepsMultiplicity(ms: seq<Message>, id: int, m: Message)
    ensures multiset(WithoutId(ms, id))[m] == if m.id == id then 0 else multiset(ms)[m]
  {
    if ms != [] {
      DeleteKeepsMultiplicity(ms[1..], id, m);
      assert ms == [ms[0]] + ms[1..];
    }
  }

  /** Deleting from a concatenation deletes from each part: the kept
      messages stay in the order the list had them. */
  lemma {:induction false} WithoutIdAppend(a: seq<Message>, b: seq<Message>, id: int)
    ensures WithoutId(a + b, id) == WithoutId(a, id) + WithoutId(b, id)
  {
    var ab := a + b;
    if a != [] {
      assert ab[0] == a[0] && ab[1..] == a[1..] + b;
      WithoutIdAppend(a[1..], b, id);
      var head := if a[0].id == id then [] else [a[0]];
      assert WithoutId(ab, id) == head + WithoutId(ab[1..], id);
      assert WithoutId(a, id) == head + WithoutId(a[1..], id);
    } else {
      assert ab == b;
    }
  }

  /** Deleting and picking out the messages of one timestamp can be done
      in either order. */
  lemma {:induction false} DeleteCommutesWithStamp(ms: seq<Message>, id: int, t: int)
    ensures StampedAt(WithoutId(ms, id), t) == WithoutId(StampedAt(ms, t), id)
  {
    if ms != [] {
      var head := if ms[0].timestamp == t then [ms[0]] else [];
      DeleteCommutesWithStamp(ms[1..], id, t);
      WithoutIdAppend(head, StampedAt(ms[1..], t), id);
      if ms[0].id != id {
        assert ([ms[0]] + WithoutId(ms[1..], id))[1..] == WithoutId(ms[1..], id);
      }
    }
  }

  /** Deleting keeps the relative order of the remaining messages: after
      the sort on save, the messages of every timestamp are those of the
      room before the delete, in the same order, less the deleted ones;
      and a room stored in timestamp order is saved back unchanged but
      for the deleted messages. */
  lemma DeleteKeepsOrder(ms: seq<Message>, id: int)
    ensures forall t :: StampedAt(SortByTimestamp(WithoutId(ms, id)), t) == WithoutId(StampedAt(ms, t), id)
    ensures SortedByTimestamp(ms) ==> SortByTimestamp(WithoutId(ms, id)) == WithoutId(ms, id)
  {
    forall t ensures StampedAt(SortByTimestamp(WithoutId(ms, id)), t) == WithoutId(StampedAt(ms, t), id) {
      DeleteCommutesWithStamp(ms, id, t);
      SortIsStable(WithoutId(ms, id), t);
    }
    if SortedByTimestamp(ms) {
      DeleteKeepsSorted(ms, id);
      SortOfSortedIsIdentity(WithoutId(ms, id));
    }
  }

  /** Deleting from a list in timestamp order leaves it in timestamp order. */
  lemma {:induction false} DeleteKeepsSorted(ms: seq<Message>, id: int)
    requires SortedByTimestamp(ms)
    ensures SortedByTimestamp(WithoutId(ms, id))
  {
    var r := WithoutId(ms, id);
    if ms != [] {
      var tail := ms[1..];
      SortedTail(ms);
      DeleteKeepsSorted(tail, id);
      var rest := WithoutId(tail, id);
      if ms[0].id != id {
        forall x | x in rest ensures ms[0].timestamp <= x.timestamp {
          var j :| 0 <= j < |tail| && tail[j] == x;
          assert tail[j] == ms[j + 1];
        }
        SortedCons(ms[0], rest);
        assert r == [ms[0]] + rest;
      }
    }
  }

  lemma SortedTail(ms: seq<Message>)
    requires ms != [] && SortedByTimestamp(ms)
    ensures SortedByTimestamp(ms[1..])
  {
    var tail := ms[1..];
    forall i, j | 0 <= i < j < |tail| ensures tail[i].timestamp <= tail[j].timestamp {
      assert tail[i] == ms[i + 1] && tail[j] == ms[j + 1];
    }
  }

  lemma SortedCons(m: Message, rest: seq<Message>)
    requires SortedByTimestamp(rest) && forall x :: x in rest ==> m.timestamp <= x.timestamp
    ensures SortedByTimestamp([m] + rest)
  {
    var r := [m] + rest;
    forall i, j | 0 <= i < j < |r| ensures r[i].timestamp <= r[j].timestamp {
      assert r[j] == rest[j - 1];
      if i > 0 { assert r[i] == rest[i - 1]; }
    }
  }

  /** Deleting, then sorting on save, keeps ids distinct. */
  lemma {:induction false} DeleteKeepsIdsDistinct(ms: seq<Message>, id: int)
    requires DistinctIds(ms)
    ensures DistinctIds(WithoutId(ms, id))
    ensures DistinctIds(SortByTimestamp(WithoutId(ms, id)))
  {
    var r := WithoutId(ms, id);
    if ms != [] {
      var tail := ms[1..];
      DistinctIdsTail(ms);
      DeleteKeepsIdsDistinct(tail, id);
      var rest := WithoutId(tail, id);
      if ms[0].id != id {
        forall x | x in rest ensures x.id != ms[0].id {
          var j :| 0 <= j < |tail| && tail[j] == x;
          assert tail[j] == ms[j + 1];
        }
        DistinctIdsCons(ms[0], rest);
        assert r == [ms[0]] + rest;
      }
    }
    SortKeepsDistinctIds(r);
  }

  lemma DistinctIdsTail(ms: seq<Message>)
    requires ms != [] && DistinctIds(ms)
    ensures DistinctIds(ms[1..])
  {
    var tail := ms[1..];
    forall i, j | 0 <= i < |tail| && 0 <= j < |tail| && i != j ensures tail[i].id != tail[j].id {
      assert tail[i] == ms[i + 1] && tail[j] == ms[j + 1];
    }
  }

  lemma DistinctIdsCons(m: Message, rest: seq<Message>)
    requires DistinctIds(rest) && forall x :: x in rest ==> x.id != m.id
    ensures DistinctIds([m] + rest)
  {
    var r := [m] + rest;
    forall i, j | 0 <= i < |r| && 0 <= j < |r| && i != j ensures r[i].id != r[j].id {
      if i > 0 && j > 0 {
        assert r[i] == rest[i - 1] && r[j] == rest[j - 1];
      } else if i == 0 {
        assert r[j] == rest[j - 1];
      } else {
        assert r[i] == rest[i - 1];
      }
    }
  }

  // ---------------------------------------------------------------------
  // Persistence

  /** What a fresh load reads after a save: the saved participants and
      the saved messages in timestamp order, which `get_messages` then
      returns unchanged. */
  lemma ReloadAfterSave(ps: seq<string>, ms: seq<Message>)
    ensures Load(SavedFile(ps, SortByTimestamp(ms))) == Ok(Room(ps, SortByTimestamp(ms)))
    ensures SortByTimestamp(SortByTimestamp(ms)) == SortByTimestamp(ms)
    ensures SortedByTimestamp(SortByTimestamp(ms))
  {
    LoadAfterSave(ps, SortByTimestamp(ms));
    SortIsIdempotent(ms);
  }

  // ---------------------------------------------------------------------
  // The room object

  class Chat {
    const fs: FileSystem
    const historyFile: string
    var participants: seq<string>
    var messages: seq<Message>

    /** What the history file holds now. */
    ghost function File(): FileState
      reads fs
    {
      Read(fs.files, historyFile)
    }

    /** The in-memory lists are `ps` and `ms` and no file changed. */
    ghost predicate Unsaved(ps: seq<string>, ms: seq<Message>, oldFiles: map<string, FileState>)
      reads this, fs
    {
      participants == ps && messages == ms && fs.files == oldFiles
    }

    /** `_save_data` ran on lists `ps` and `ms`: the messages were sorted
        in place and the history file, and only it, was rewritten. */
    ghost predicate Saved(ps: seq<string>, ms: seq<Message>, oldFiles: map<string, FileState>)
      reads this, fs
    {
      participants == ps && messages == SortByTimestamp(ms)
      && fs.files == oldFiles[historyFile := SavedFile(ps, SortByTimestamp(ms))]
    }

    /** `_load_data` raised: the participants were already reassigned,
        the messages were not, and nothing was written. */
    ghost predicate LoadFailed(f: FileState, oldMessages: seq<Message>, oldFiles: map<string, FileState>)
      reads this, fs
    {
      Unsaved(LoadedParticipants(f), oldMessages, oldFiles)
    }

    /** The field initialisation of `__init__`, before its first load. */
    constructor (fs: FileSystem, historyFile: string)
      ensures this.fs == fs && this.historyFile == historyFile
      ensures participants == [] && messages == []
    {
      this.fs := fs;
      this.historyFile := historyFile;
      participants := [];
      messages := [];
    }

    /** `Chat(history_file)`: set up the object and load the room once. */
    static method Open(fs: FileSystem, historyFile: string) returns (r: Result<Chat, Error>)
      ensures match Load(Read(fs.files, historyFile))
              case Ok(room) =>
                r.Ok? && fresh(r.value) && r.value.fs == fs && r.value.historyFile == historyFile
                && r.value.participants == room.participants && r.value.messages == room.messages
              case Err(e) => r == Err(e)
    {
      var chat := new Chat(fs, historyFile);
      var loaded := chat.LoadData();
      if loaded.Ok? {
        r := Ok(chat);
      } else {
        r := Err(loaded.error);
      }
    }

    /** `_load_data`: replace both lists by what the history file holds. */
    method LoadData() returns (r: Result<(), Error>)
      modifies this
      ensures participants == LoadedParticipants(File())
      ensures match Load(File())
              case Ok(room) => r == Ok(()) && messages == room.messages
              case Err(e) => r == Err(e) && messages == old(messages)
    {
      var f := Read(fs.files, historyFile);
      participants := LoadedParticipants(f);
      match Load(f)
      case Ok(room) =>
        messages := room.messages;
        r := Ok(());
      case Err(e) =>
        r := Err(e);
    }

    /** `_save_data`: sort the messages in place and write both lists. */
    method SaveData()
      modifies this, fs
      ensures Saved(old(participants), old(messages), old(fs.files))
    {
      messages := SortByTimestamp(messages);
      fs.files := fs.files[historyFile := SavedFile(participants, messages)];
    }

    method GetParticipants() returns (r: Result<seq<string>, Error>)
      modifies this
      ensures match Load(File())
              case Ok(room) => r == Ok(room.participants) && Unsaved(room.participants, room.messages, fs.files)
              case Err(e) => r == Err(e) && LoadFailed(File(), old(messages), fs.files)
    {
      var loaded := LoadData();
      if loaded.Err? {
        return Err(loaded.error);
      }
      r := Ok(participants);
    }

    method AddParticipant(name: string) returns (r: Result<(), Error>)
      modifies this, fs
      ensures var f := Read(old(fs.files), historyFile);
              match Load(f)
              case Err(e) => r == Err(e) && LoadFailed(f, old(messages), old(fs.files))
              case Ok(room) =>
                r == Ok(())
                && if name != "" && name !in room.participants
                   then Saved(WithParticipant(room.participants, name), room.messages, old(fs.files))
                   else Unsaved(room.participants, room.messages, old(fs.files))
    {
      var loaded := LoadData();
      if loaded.Err? {
        return Err(loaded.error);
      }
      if name != "" && name !in participants {
        participants := participants + [name];
        SaveData();
      }
      r := Ok(());
    }

    method RemoveParticipant(name: string) returns (r: Result<(), Error>)
      modifies this, fs
      ensures var f := Read(old(fs.files), historyFile);
              match Load(f)
              case Err(e) => r == Err(e) && LoadFailed(f, old(messages), old(fs.files))
              case Ok(room) =>
                r == Ok(())
                && if name in room.participants
                   then Saved(WithoutParticipant(room.participants, name), room.messages, old(fs.files))
                   else Unsaved(room.participants, room.messages, old(fs.files))
    {
      var loaded := LoadData();
      if loaded.Err? {
        return Err(loaded.error);
      }
      if name in participants {
        participants := WithoutParticipant(participants, name);
        SaveData();
      }
      r := Ok(());
    }

    /** `get_messages`: a sorted copy; the in-memory list is left in file order. */
    method GetMessages() returns (r: Result<seq<Message>, Error>)
      modifies this
      ensures match Load(File())
              case Ok(room) =>
                r == Ok(SortByTimestamp(room.messages)) && Unsaved(room.participants, room.messages, fs.files)
              case Err(e) => r == Err(e) && LoadFailed(File(), old(messages), fs.files)
    {
      var loaded := LoadData();
      if loaded.Err? {
        return Err(loaded.error);
      }
      r := Ok(SortByTimestamp(messages));
    }

    method AddMessage(name: string, content: string, now: int) returns (r: Result<Message, Error>)
      modifies this, fs
      ensures var f := Read(old(fs.files), historyFile);
              match Load(f)
              case Err(e) => r == Err(e) && LoadFailed(f, old(messages), old(fs.files))
              case Ok(room) =>
                if name !in room.participants then
                  r == Err(NotApprovedParticipant(name)) && Unsaved(room.participants, room.messages, old(fs.files))
                else
                  r == Ok(NewMessage(room.messages, name, content, now))
                  && Saved(room.participants, room.messages + [r.value], old(fs.files))
    {
      var loaded := LoadData();
      if loaded.Err? {
        return Err(loaded.error);
      }
      if name !in participants {
        return Err(NotApprovedParticipant(name));
      }
      var message := NewMessage(messages, name, content, now);
      messages := messages + [message];
      SaveData();
      r := Ok(message);
    }

    method GetMessageById(id: int) returns (r: Result<Option<Message>, Error>)
      modifies this
      ensures match Load(File())
              case Ok(room) =>
                Unsaved(room.participants, room.messages, fs.files)
                && r == Ok(match FirstIndexWithId(room.messages, id)
                           case None => None
                           case Some(k) => Some(room.messages[k]))
              case Err(e) => r == Err(e) && LoadFailed(File(), old(messages), fs.files)
    {
      var loaded := LoadData();
      if loaded.Err? {
        return Err(loaded.error);
      }
      var k := IndexOfId(messages, id);
      if k.Some? {
        r := Ok(Some(messages[k.value]));
      } else {
        r := Ok(None);
      }
    }

    method EditMessage(id: int, content: string) returns (r: Result<(), Error>)
      modifies this, fs
      ensures var f := Read(old(fs.files), historyFile);
              match Load(f)
              case Err(e) => r == Err(e) && LoadFailed(f, old(messages), old(fs.files))
              case Ok(room) =>
                match Edited(room.messages, id, content)
                case None =>
                  r == Err(MessageNotFound(id)) && Unsaved(room.participants, room.messages, old(fs.files))
                case Some(edited) =>
                  r == Ok(()) && Saved(room.participants, edited, old(fs.files))
    {
      var loaded := LoadData();
      if loaded.Err? {
        return Err(loaded.error);
      }
      var k := IndexOfId(messages, id);
      if k.Some? {
        messages := messages[k.value := messages[k.value].(content := content)];
        SaveData();
        r := Ok(());
      } else {
        r := Err(MessageNotFound(id));
      }
    }

    method DeleteMessage(id: int) returns (r: Result<(), Error>)
      modifies this, fs
      ensures var f := Read(old(fs.files), historyFile);
              match Load(f)
              case Err(e) => r == Err(e) && LoadFailed(f, old(messages), old(fs.files))
              case Ok(room) =>
                if !HasMessage(room.messages, id) then
                  r == Err(MessageNotFound(id)) && Unsaved(room.participants, room.messages, old(fs.files))
                else
                  r == Ok(()) && Saved(room.participants, WithoutId(room.messages, id), old(fs.files))
    {
      var loaded := LoadData();
      if loaded.Err? {
        return Err(loaded.error);
      }
      var initialLength := |messages|;
      messages := WithoutId(messages, id);
      if |messages| == initialLength {
        return Err(MessageNotFound(id));
      }
      SaveData();
      r := Ok(());
    }
  }

  /** The search loop of `get_message_by_id` and `edit_message`: the
      position of the first message with `id`, if any. */
  method IndexOfId(ms: seq<Message>, id: int) returns (k: Option<nat>)
    ensures k == FirstIndexWithId(ms, id)
  {
    var i := 0;
    while i < |ms|
      invariant 0 <= i <= |ms|
      invariant forall j :: 0 <= j < i ==> ms[j].id != id
    {
      if ms[i].id == id {
        return Some(i);
      }
      i := i + 1;
    }
    return None;
  }
}
