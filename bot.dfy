/** The handlers and the append-only chat log they share. */
module Bot {
  import opened Wrappers
  import opened Identity
  import opened Records
  import Paths
  import Timestamp

  /** An incoming message as a handler reads it: chat, sender, text and caption. */
  datatype Message = Message(chatId: int, sender: User, text: string, caption: Option<string>)

  /** A reply sent back into a chat. */
  datatype Reply = Reply(chatId: int, text: string)

  /** One element of the JSON list in the log file: a record in the shape the handlers
      write, or any other JSON value, kept as its text. */
  datatype Entry = Logged(record: Record) | Foreign(json: string)

  /** The contents of `./chat_history.json`: absent, empty, a JSON list, or text that does
      not load as a list (a `json.loads` failure, or a value such as an object or a number
      that has no `append`). */
  datatype StoredLog = Missing | Blank | Parsed(entries: seq<Entry>) | Unreadable(text: string)

  /** The list an append starts from; `None` when reading the file raises. */
  function Loaded(f: StoredLog): Option<seq<Entry>> {
    match f
    case Missing => Some([])
    case Blank => Some([])
    case Parsed(es) => Some(es)
    case Unreadable(_) => None
  }

  /** The list elements the handlers' records become. */
  function AsEntries(rs: seq<Record>): seq<Entry> {
    seq(|rs|, i requires 0 <= i < |rs| => Logged(rs[i]))
  }

  /** The file after appending `rs` one at a time: the first failing read aborts,
      leaving the file as it was. */
  function AppendAll(f: StoredLog, rs: seq<Record>): StoredLog {
    if rs == [] || Loaded(f).None? then f else Parsed(Loaded(f).value + AsEntries(rs))
  }

  /** Appending keeps every earlier element, records or not, in order, and adds exactly
      the new records after them; an unreadable file is never overwritten. */
  lemma AppendKeepsHistory(f: StoredLog, rs: seq<Record>)
    ensures Loaded(f).Some? ==> Loaded(AppendAll(f, rs)) == Some(Loaded(f).value + AsEntries(rs))
    ensures Loaded(f).None? ==> AppendAll(f, rs) == f
  {
    if rs == [] {
      assert Loaded(f).GetOr([]) + AsEntries(rs) == Loaded(f).GetOr([]);
    }
  }

  /** Two appends in a row are one append of both batches. */
  lemma AppendAllTwice(f: StoredLog, a: seq<Record>, b: seq<Record>)
    ensures AppendAll(AppendAll(f, a), b) == AppendAll(f, a + b)
  {
    assert AsEntries(a + b) == AsEntries(a) + AsEntries(b);
    if a != [] && b != [] && Loaded(f).Some? {
      assert Loaded(f).value + AsEntries(a) + AsEntries(b) == Loaded(f).value + (AsEntries(a) + AsEntries(b));
    }
  }

  /** What `handle_text` logs. The history keyword logs only the reply. */
  function TextEntries(m: Message, archive: Option<string>, userTime: string, botTime: string): seq<Record> {
    if IsHistoryRequest(m.text) then
      [BotResponse(m.chatId, botTime, HistoryReply(archive))]
    else
      [UserMessage(Text, GetUserIdentifier(m.sender), m.chatId, userTime, m.text),
       BotResponse(m.chatId, botTime, TextReply(m.text))]
  }

  /** What `handle_text` replies. */
  function TextResponse(m: Message, archive: Option<string>): string {
    if IsHistoryRequest(m.text) then HistoryReply(archive) else TextReply(m.text)
  }

  /** What `handle_photo`, `handle_video` and `handle_audio` log. */
  function MediaEntries(k: Paths.MediaKind, m: Message, filename: string,
                        userTime: string, botTime: string): seq<Record> {
    [UserMedia(k, GetUserIdentifier(m.sender), m.chatId, userTime,
               Paths.RecordPath(k, filename), CaptionText(m.caption)),
     BotResponse(m.chatId, botTime, MediaReply(k, filename))]
  }

  /** What `start` logs. */
  function StartEntries(m: Message, userTime: string, botTime: string): seq<Record> {
    [UserMessage(Command, GetUserIdentifier(m.sender), m.chatId, userTime, "/start"),
     BotResponse(m.chatId, botTime, Greeting)]
  }

  /** A bot record: type text, sender bot, the chat, the time and the reply, and no
      username, file path or caption. */
  predicate IsBotRecord(r: Record, chatId: int, timestamp: string, text: string) {
    r.kind == Text && r.sender == FromBot && r.username.None? && r.chatId == chatId &&
    r.timestamp == timestamp && r.content == Some(text) && r.filePath.None? && r.caption.None?
  }

  /** An ordinary text logs the user's message and then the echo, in that chat. */
  lemma OrdinaryTextEntries(m: Message, archive: Option<string>, userTime: string, botTime: string)
    requires !IsHistoryRequest(m.text)
    ensures var rs := TextEntries(m, archive, userTime, botTime);
      |rs| == 2 &&
      rs[0].kind == Text && rs[0].sender == FromUser && rs[0].chatId == m.chatId &&
      rs[0].username == Some(GetUserIdentifier(m.sender)) && rs[0].timestamp == userTime &&
      rs[0].content == Some(m.text) && rs[0].filePath.None? && rs[0].caption.None? &&
      IsBotRecord(rs[1], m.chatId, botTime, "Received your text message: " + m.text)
  {
  }

  /** The history keyword logs no user record, only the reply, and the reply carries the
      archive when it exists and the notice when it does not. */
  lemma HistoryRequestEntries(m: Message, archive: Option<string>, userTime: string, botTime: string)
    requires IsHistoryRequest(m.text)
    ensures var rs := TextEntries(m, archive, userTime, botTime);
      |rs| == 1 && IsBotRecord(rs[0], m.chatId, botTime, TextResponse(m, archive)) &&
      (archive.None? ==> TextResponse(m, archive) == NoHistory) &&
      (archive.Some? ==> TextResponse(m, archive) == HistoryHeader + archive.value)
  {
  }

  /** A media message logs the attachment, by its `./<kind>/<filename>` path and its
      caption or "", and then the reply naming the saved file. */
  lemma MediaEntriesShape(k: Paths.MediaKind, m: Message, filename: string, userTime: string, botTime: string)
    ensures var rs := MediaEntries(k, m, filename, userTime, botTime);
      |rs| == 2 &&
      rs[0].kind == Media(k) && rs[0].sender == FromUser && rs[0].chatId == m.chatId &&
      rs[0].username == Some(GetUserIdentifier(m.sender)) && rs[0].timestamp == userTime &&
      rs[0].content.None? && rs[0].filePath == Some("./" + k.Name() + "/" + filename) &&
      (Truthy(m.caption) ==> rs[0].caption == Some(m.caption.value)) &&
      (!Truthy(m.caption) ==> rs[0].caption == Some("")) &&
      IsBotRecord(rs[1], m.chatId, botTime, "Received your " + k.Name() + "! Saved as " + filename)
  {
  }

  /** `/start` logs the command and then the greeting; the greeting is the same for every sender. */
  lemma StartGreetingIgnoresSender(m1: Message, m2: Message, userTime: string, botTime: string)
    requires m1.chatId == m2.chatId
    ensures var rs1, rs2 := StartEntries(m1, userTime, botTime), StartEntries(m2, userTime, botTime);
      |rs1| == 2 && rs1[0].kind == Command && rs1[0].sender == FromUser &&
      rs1[0].username == Some(GetUserIdentifier(m1.sender)) && rs1[0].chatId == m1.chatId &&
      rs1[0].timestamp == userTime && rs1[0].content == Some("/start") &&
      rs1[0].filePath.None? && rs1[0].caption.None? &&
      IsBotRecord(rs1[1], m1.chatId, botTime, Greeting) && rs1[1] == rs2[1]
  {
  }

  /** The files and the chat a handler touches. */
  class ChatStore {
    /** `./chat_history.json`, where every record is appended. */
    var log: StoredLog
    /** `./message/chat_history.json`, which the history keyword reads and nothing writes. */
    var archive: Option<string>
    /** The paths attachments were written to, oldest first. */
    var saved: seq<string>
    /** The replies sent, oldest first. */
    var sent: seq<Reply>

    constructor (log: StoredLog, archive: Option<string>)
      ensures this.log == log && this.archive == archive && saved == [] && sent == []
    {
      this.log := log;
      this.archive := archive;
      saved := [];
      sent := [];
    }

    /** Reads the log: an absent or empty file is the empty list; unreadable text raises. */
    method ReadHistory() returns (history: Option<seq<Entry>>)
      ensures log.Missing? || log.Blank? ==> history == Some([])
      ensures log.Parsed? ==> history == Some(log.entries)
      ensures log.Unreadable? <==> history.None?
      ensures history == Loaded(log)
    {
      match log
      case Missing => history := Some([]);
      case Blank => history := Some([]);
      case Parsed(es) => history := Some(es);
      case Unreadable(_) => history := None;
    }

    /** `save_message_to_json`: read the list, add `r` at the end, write the whole list back. */
    method SaveMessage(r: Record) returns (ok: bool)
      modifies this`log
      ensures ok == Loaded(old(log)).Some?
      ensures ok ==> log == Parsed(Loaded(old(log)).value + [Logged(r)])
      ensures !ok ==> log == old(log)
      ensures log == AppendAll(old(log), [r])
    {
      var history := ReadHistory();
      if history.None? {
        return false;
      }
      var entries := history.value + [Logged(r)];
      log := Parsed(entries);
      ok := true;
    }

    /** `store_bot_response`: append the bot's reply record. */
    method StoreBotResponse(chatId: int, timestamp: string, text: string) returns (ok: bool)
      modifies this`log
      ensures ok == Loaded(old(log)).Some?
      ensures log == AppendAll(old(log), [BotResponse(chatId, timestamp, text)])
    {
      ok := SaveMessage(BotResponse(chatId, timestamp, text));
    }

    /** `download_file`: name the file after the clock and the resolved path's extension
        and write it under `chat/message/<kind>/`. */
    method DownloadFile(k: Paths.MediaKind, resolvedPath: string, now: Timestamp.DateTime) returns (filename: string)
      requires now.Valid()
      modifies this`saved
      ensures filename == Paths.Filename(now, resolvedPath)
      ensures saved == old(saved) + [Paths.SavedPath(k, filename)]
    {
      filename := Paths.Filename(now, resolvedPath);
      saved := saved + [Paths.SavedPath(k, filename)];
    }

    /** `handle_text`. The history keyword replies from the archive and logs only the reply;
        any other text logs the message, replies with an echo and logs the echo. */
    method HandleText(m: Message, userTime: string, botTime: string) returns (ok: bool)
      modifies this`log, this`sent
      ensures ok == Loaded(old(log)).Some?
      ensures log == AppendAll(old(log), TextEntries(m, archive, userTime, botTime))
      ensures sent == old(sent) + (if ok || IsHistoryRequest(m.text) then [Reply(m.chatId, TextResponse(m, archive))] else [])
    {
      var user := GetUserIdentifier(m.sender);
      if IsHistoryRequest(m.text) {
        var responseText := HistoryReply(archive);
        sent := sent + [Reply(m.chatId, responseText)];
        ok := StoreBotResponse(m.chatId, botTime, responseText);
        return;
      }
      ok := SaveMessage(UserMessage(Text, user, m.chatId, userTime, m.text));
      if !ok {
        return;
      }
      var responseText := TextReply(m.text);
      sent := sent + [Reply(m.chatId, responseText)];
      ok := StoreBotResponse(m.chatId, botTime, responseText);
      AppendAllTwice(old(log), [UserMessage(Text, user, m.chatId, userTime, m.text)],
                     [BotResponse(m.chatId, botTime, responseText)]);
    }

    /** `handle_photo`, `handle_video` and `handle_audio`: save the attachment, log it,
        reply with the saved name and log the reply. */
    method HandleMedia(k: Paths.MediaKind, m: Message, resolvedPath: string, now: Timestamp.DateTime,
                       userTime: string, botTime: string) returns (ok: bool)
      requires now.Valid()
      modifies this`log, this`sent, this`saved
      ensures saved == old(saved) + [Paths.SavedPath(k, Paths.Filename(now, resolvedPath))]
      ensures ok == Loaded(old(log)).Some?
      ensures log == AppendAll(old(log), MediaEntries(k, m, Paths.Filename(now, resolvedPath), userTime, botTime))
      ensures sent == old(sent) + (if ok then [Reply(m.chatId, MediaReply(k, Paths.Filename(now, resolvedPath)))] else [])
    {
      var user := GetUserIdentifier(m.sender);
      var filename := DownloadFile(k, resolvedPath, now);
      var entry := UserMedia(k, user, m.chatId, userTime, Paths.RecordPath(k, filename), CaptionText(m.caption));
      ok := SaveMessage(entry);
      if !ok {
        return;
      }
      var responseText := MediaReply(k, filename);
      sent := sent + [Reply(m.chatId, responseText)];
      ok := StoreBotResponse(m.chatId, botTime, responseText);
      AppendAllTwice(old(log), [entry], [BotResponse(m.chatId, botTime, responseText)]);
    }

    /** `start`: log the command, send the greeting and log it. */
    method Start(m: Message, userTime: string, botTime: string) returns (ok: bool)
      modifies this`log, this`sent
      ensures ok == Loaded(old(log)).Some?
      ensures log == AppendAll(old(log), StartEntries(m, userTime, botTime))
      ensures sent == old(sent) + (if ok then [Reply(m.chatId, Greeting)] else [])
    {
      var user := GetUserIdentifier(m.sender);
      var command := UserMessage(Command, user, m.chatId, userTime, "/start");
      ok := SaveMessage(command);
      if !ok {
        return;
      }
      sent := sent + [Reply(m.chatId, Greeting)];
      ok := StoreBotResponse(m.chatId, botTime, Greeting);
      AppendAllTwice(old(log), [command], [BotResponse(m.chatId, botTime, Greeting)]);
    }
  }
}
