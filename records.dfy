/** The entries of the chat log and the bot's canned replies. */
module Records {
  import opened Wrappers
  import Paths

  /** The record's `type` field. */
  datatype Kind = Text | Command | Media(media: Paths.MediaKind) {
    function Name(): string {
      match this
      case Text => "text"
      case Command => "command"
      case Media(m) => m.Name()
    }
  }

  /** The record's `sender` field. */
  datatype Sender = FromUser | FromBot {
    function Name(): string {
      match this
      case FromUser => "user"
      case FromBot => "bot"
    }
  }

  /** One JSON object of the log; an absent key is `None`. */
  datatype Record = Record(kind: Kind, sender: Sender, username: Option<string>, chatId: int,
                           timestamp: string, content: Option<string>,
                           filePath: Option<string>, caption: Option<string>)

  /** A user's text message or command. */
  function UserMessage(kind: Kind, user: string, chatId: int, timestamp: string, content: string): Record {
    Record(kind, FromUser, Some(user), chatId, timestamp, Some(content), None, None)
  }

  /** A user's photo, video or audio, by the path the log gives it. */
  function UserMedia(k: Paths.MediaKind, user: string, chatId: int, timestamp: string,
                     filePath: string, caption: string): Record {
    Record(Media(k), FromUser, Some(user), chatId, timestamp, None, Some(filePath), Some(caption))
  }

  /** The bot's reply as `store_bot_response` logs it: no username, no attachment. */
  function BotResponse(chatId: int, timestamp: string, text: string): Record {
    Record(Text, FromBot, None, chatId, timestamp, Some(text), None, None)
  }

  /** Python's `caption if caption else ""`. */
  function CaptionText(caption: Option<string>): string {
    if caption.Some? && caption.value != "" then caption.value else ""
  }

  const HistoryKeyword: string := "read_chat_history"

  const HistoryHeader: string := "Chat History:\n"

  const NoHistory: string := "No chat history found."

  /** The greeting's item that tells the user how to ask for the history. */
  const HistoryItem: string := "2. Show chat history (type '" + HistoryKeyword + "')"

  const Greeting: string :=
    "\U{1F44B} Hello! I'm your chat bot. I can:\n" +
    "1. Store all messages and media\n" +
    HistoryItem + "\n" +
    "3. Handle text, photos, videos, and audio"

  function LowerChar(c: char): char {
    if 'A' <= c <= 'Z' then (c as int + 32) as char else c
  }

  function UpperChar(c: char): char {
    if 'a' <= c <= 'z' then (c as int - 32) as char else c
  }

  /** `str.lower()` on the letters A to Z. */
  function Lower(s: string): string {
    seq(|s|, i requires 0 <= i < |s| => LowerChar(s[i]))
  }

  /** `message.lower() == "read_chat_history"`. */
  predicate IsHistoryRequest(text: string) {
    Lower(text) == HistoryKeyword
  }

  /** The keyword matches in any letter case and in nothing else: each character is the
      keyword's own or its upper-case form. */
  lemma HistoryRequestIff(text: string)
    ensures IsHistoryRequest(text) <==>
      |text| == |HistoryKeyword| &&
      forall i :: 0 <= i < |text| ==> text[i] == HistoryKeyword[i] || text[i] == UpperChar(HistoryKeyword[i])
  {
  }

  /** The reply to the history keyword: the archive's text under a header, or a notice. */
  function HistoryReply(archive: Option<string>): string {
    match archive
    case Some(content) => HistoryHeader + content
    case None => NoHistory
  }

  /** The reply starts with the header exactly when the archive exists, and then the
      whole archive follows it. */
  lemma HistoryReplyTellsFound(archive: Option<string>)
    ensures var r := HistoryReply(archive);
      (|r| >= |HistoryHeader| && r[..|HistoryHeader|] == HistoryHeader) <==> archive.Some?
    ensures archive.Some? ==> HistoryReply(archive)[|HistoryHeader|..] == archive.value
    ensures archive.None? ==> HistoryReply(archive) == NoHistory
  {
    var r := HistoryReply(archive);
    if archive.None? {
      assert r[0] != HistoryHeader[0];
    } else {
      assert r[..|HistoryHeader|] == HistoryHeader;
    }
  }

  /** The greeting's third line, its second numbered item, names the history keyword in
      the form `handle_text` matches. */
  lemma GreetingAdvertisesKeyword()
    ensures Greeting[66] == '\n' && Greeting[114] == '\n'
    ensures Greeting[67..114] == HistoryItem
    ensures IsHistoryRequest(Greeting[95..112])
  {
    var head := "\U{1F44B} Hello! I'm your chat bot. I can:\n" + "1. Store all messages and media\n";
    var tail := "\n" + "3. Handle text, photos, videos, and audio";
    assert |head| == 67 && |HistoryItem| == 47;
    assert Greeting == head + HistoryItem + tail;
    assert Greeting[66] == head[66] == '\n';
    assert Greeting[114] == tail[0] == '\n';
    assert Greeting[67..114] == HistoryItem;
    assert HistoryItem[28..45] == HistoryKeyword;
    assert Greeting[95..112] == HistoryItem[28..45];
  }

  function TextReply(text: string): string {
    "Received your text message: " + text
  }

  function MediaReply(k: Paths.MediaKind, filename: string): string {
    "Received your " + k.Name() + "! Saved as " + filename
  }
}
