/** The directory of chat rooms (model/chat_manager.py): room `n` lives in
    the file "chat_history_" + n + ".json" inside one history
    directory; listing the rooms inverts that naming, and creating a
    room writes an empty history file unless one is already there. */
module ChatManagement {
  import opened Wrappers
  import opened ChatErrors
  import opened Storage

  const HistoryPrefix: string := "chat_history_"
  const HistorySuffix: string := ".json"

  /** `str.startswith` */
  predicate StartsWith(s: string, prefix: string)
  {
    |prefix| <= |s| && s[..|prefix|] == prefix
  }

  /** `str.endswith` */
  predicate EndsWith(s: string, suffix: string)
  {
    |suffix| <= |s| && s[|s| - |suffix|..] == suffix
  }

  /** The file name of room `chatName`, without its directory. */
  function HistoryFileName(chatName: string): (r: string)
    ensures |r| == |HistoryPrefix| + |chatName| + |HistorySuffix|
    ensures r[..|HistoryPrefix|] == HistoryPrefix && r[|r| - |HistorySuffix|..] == HistorySuffix
  {
    HistoryPrefix + chatName + HistorySuffix
  }

  /** The filter `get_chat_list` applies to a directory entry. */
  predicate IsHistoryFileName(entry: string)
  {
    StartsWith(entry, HistoryPrefix) && EndsWith(entry, HistorySuffix)
  }

  /** `entry[len(prefix):-len(".json")]`, with Python's slice rules: an
      end index past the start of the string clamps to 0, and a start at
      or after the end gives the empty string. */
  function ChatNameOf(entry: string): (r: string)
    ensures |entry| >= |HistoryPrefix| + |HistorySuffix| ==>
              r == entry[|HistoryPrefix|..|entry| - |HistorySuffix|]
    ensures |entry| < |HistoryPrefix| + |HistorySuffix| ==> r == ""
  {
    var end := if |entry| >= |HistorySuffix| then |entry| - |HistorySuffix| else 0;
    if |HistoryPrefix| <= end then entry[|HistoryPrefix|..end] else ""
  }

  /** An entry the filter accepts cannot have its prefix and suffix
      overlap (the prefix would have to contain the suffix's '.'), so
      stripping both leaves exactly the part between them. */
  lemma AcceptedEntryDecomposes(entry: string)
    requires IsHistoryFileName(entry)
    ensures |entry| >= |HistoryPrefix| + |HistorySuffix|
    ensures entry == HistoryFileName(ChatNameOf(entry))
  {
    var n := |entry|;
    // Were the two to overlap, the suffix's '.' would fall on one of the
    // prefix's last five characters, none of which is a '.'.
    assert entry[n - |HistorySuffix|] == HistorySuffix[0] == '.';
    assert forall k :: 8 <= k < |HistoryPrefix| ==> HistoryPrefix[k] != '.';
    assert entry == entry[..|HistoryPrefix|] + entry[|HistoryPrefix|..n - |HistorySuffix|] + entry[n - |HistorySuffix|..];
  }

  /** Naming round trip: the file name of any room passes the filter and
      strips back to the room's name. */
  lemma NamingRoundTrip(chatName: string)
    ensures IsHistoryFileName(HistoryFileName(chatName))
    ensures ChatNameOf(HistoryFileName(chatName)) == chatName
  {
    var f := HistoryFileName(chatName);
    assert f[..|HistoryPrefix|] == HistoryPrefix;
    assert f[|f| - |HistorySuffix|..] == HistorySuffix;
    assert f[|HistoryPrefix|..|f| - |HistorySuffix|] == chatName;
  }

  /** The filter accepts exactly the file names of rooms. */
  lemma FilterAcceptsExactlyRoomFiles(entry: string)
    ensures IsHistoryFileName(entry) <==> exists chatName :: entry == HistoryFileName(chatName)
  {
    if IsHistoryFileName(entry) {
      AcceptedEntryDecomposes(entry);
    } else {
      forall chatName ensures entry != HistoryFileName(chatName) {
        NamingRoundTrip(chatName);
      }
    }
  }

  /** The room names `get_chat_list` collects from `listing`, in listing
      order: at most one per entry, and each the name of a room whose
      file is among the entries. */
  function ChatNames(listing: seq<string>): (r: seq<string>)
    ensures |r| <= |listing|
    ensures forall i :: 0 <= i < |r| ==> HistoryFileName(r[i]) in listing
  {
    if listing == [] then []
    else
      var init, last := listing[..|listing| - 1], listing[|listing| - 1];
      assert listing == init + [last];
      if IsHistoryFileName(last) then
        AcceptedEntryDecomposes(last);
        ChatNames(init) + [ChatNameOf(last)]
      else
        ChatNames(init)
  }

  /** A room is listed exactly when its file name is among the entries;
      every other entry is ignored. */
  lemma {:induction false} ChatNamesMembership(listing: seq<string>, chatName: string)
    ensures chatName in ChatNames(listing) <==> HistoryFileName(chatName) in listing
  {
    if listing != [] {
      var init, last := listing[..|listing| - 1], listing[|listing| - 1];
      ChatNamesMembership(init, chatName);
      assert listing == init + [last];
      NamingRoundTrip(chatName);
      if IsHistoryFileName(last) {
        AcceptedEntryDecomposes(last);
      }
    }
  }

  /** Listing order is kept: the names drawn from two stretches of a
      listing are the names of the first followed by those of the second. */
  lemma {:induction false} ChatNamesConcat(a: seq<string>, b: seq<string>)
    ensures ChatNames(a + b) == ChatNames(a) + ChatNames(b)
  {
    if b != [] {
      var init := b[..|b| - 1];
      ChatNamesConcat(a, init);
      assert (a + b)[..|a + b| - 1] == a + init;
    } else {
      assert a + b == a;
    }
  }

  /** The directory part `os.path.join` puts in front of a relative
      name: the directory and one '/', which is left out when the
      directory is empty or already ends in one. */
  function DirectoryPart(directory: string): (r: string)
    ensures |directory| <= |r| <= |directory| + 1 && r[..|directory|] == directory
    ensures r == "" <==> directory == ""
    ensures r != "" ==> r[|r| - 1] == '/'
  {
    if directory == "" || directory[|directory| - 1] == '/' then directory else directory + "/"
  }

  /** `os.path.join(directory, file)` on POSIX: an absolute `file`
      replaces the directory. */
  function JoinPath(directory: string, file: string): (path: string)
    ensures |file| <= |path| && path[|path| - |file|..] == file
    ensures |file| > 0 && file[0] == '/' ==> path == file
    ensures !(|file| > 0 && file[0] == '/') ==> path[..|path| - |file|] == DirectoryPart(directory)
  {
    if |file| > 0 && file[0] == '/' then file else DirectoryPart(directory) + file
  }

  /** A plain file name: non-empty and free of '/'. */
  predicate IsEntryName(entry: string)
  {
    entry != "" && '/' !in entry
  }

  /** `listing` is what `os.listdir(directory)` returns on `files`: the
      names of the things present directly inside `directory`. */
  ghost predicate ListsDirectory(files: map<string, FileState>, directory: string, listing: seq<string>)
  {
    forall entry :: entry in listing <==> IsEntryName(entry) && Exists(files, JoinPath(directory, entry))
  }

  /** A file created for a room whose name holds no '/' shows up, under
      that name, in the room list of a listing of its directory. */
  lemma ExistingRoomIsListed(files: map<string, FileState>, directory: string, listing: seq<string>, chatName: string)
    requires '/' !in chatName
    requires Exists(files, JoinPath(directory, HistoryFileName(chatName)))
    requires ListsDirectory(files, directory, listing)
    ensures chatName in ChatNames(listing)
  {
    var entry := HistoryFileName(chatName);
    RoomFileIsEntryName(chatName);
    assert entry in listing <==> IsEntryName(entry) && Exists(files, JoinPath(directory, entry));
    ChatNamesMembership(listing, chatName);
  }

  lemma RoomFileIsEntryName(chatName: string)
    requires '/' !in chatName
    ensures IsEntryName(HistoryFileName(chatName))
  {
    var entry := HistoryFileName(chatName);
    assert '/' !in HistoryPrefix && '/' !in HistorySuffix;
    assert entry == HistoryPrefix + chatName + HistorySuffix;
  }

  /** A freshly created room loads as an empty room. */
  lemma CreatedRoomIsEmpty()
    ensures Load(EmptyRoomFile) == Ok(Room([], []))
  {
  }

  class ChatManager {
    const fs: FileSystem
    const historyDir: string

    constructor (fs: FileSystem, historyDir: string)
      ensures this.fs == fs && this.historyDir == historyDir
    {
      this.fs := fs;
      this.historyDir := historyDir;
    }

    /** `get_chat_history_file`: the room's file name under the history
        directory; different rooms get different paths. */
    function GetChatHistoryFile(chatName: string): (path: string)
      ensures path == DirectoryPart(historyDir) + HistoryFileName(chatName)
      ensures EndsWith(path, HistoryFileName(chatName))
    {
      JoinPath(historyDir, HistoryFileName(chatName))
    }

    /** Distinct rooms never share a history file. */
    lemma DistinctRoomsDistinctFiles(a: string, b: string)
      ensures GetChatHistoryFile(a) == GetChatHistoryFile(b) ==> a == b
    {
      if GetChatHistoryFile(a) == GetChatHistoryFile(b) {
        var d := DirectoryPart(historyDir);
        assert d + HistoryFileName(a) == d + HistoryFileName(b);
        assert HistoryFileName(a) == (d + HistoryFileName(a))[|d|..];
        NamingRoundTrip(a);
        NamingRoundTrip(b);
      }
    }

    /** `get_chat_list`, given the entries `os.listdir` returns for the
        history directory. */
    method GetChatList(listing: seq<string>) returns (chats: seq<string>)
      ensures chats == ChatNames(listing)
    {
      chats := [];
      var i := 0;
      while i < |listing|
        invariant 0 <= i <= |listing|
        invariant chats == ChatNames(listing[..i])
      {
        var filename := listing[i];
        assert listing[..i + 1][..i] == listing[..i];
        if StartsWith(filename, HistoryPrefix) && EndsWith(filename, HistorySuffix) {
          chats := chats + [ChatNameOf(filename)];
        }
        i := i + 1;
      }
      assert listing[..i] == listing;
    }

    /** `create_chat`: refuse if anything is at the room's path, otherwise
        write an empty room there and touch nothing else. */
    method CreateChat(chatName: string) returns (r: Result<(), Error>)
      modifies fs
      ensures var path := GetChatHistoryFile(chatName);
              if Exists(old(fs.files), path) then
                r == Err(ChatAlreadyExists(chatName)) && fs.files == old(fs.files)
              else
                r == Ok(()) && fs.files == old(fs.files)[path := EmptyRoomFile]
    {
      var historyFile := GetChatHistoryFile(chatName);
      if Exists(fs.files, historyFile) {
        return Err(ChatAlreadyExists(chatName));
      }
      fs.files := fs.files[historyFile := EmptyRoomFile];
      r := Ok(());
    }
  }
}
