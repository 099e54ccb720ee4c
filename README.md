# Chat-logging Telegram bot: a Dafny model of its core

The bot answers `/start`, text, photo, video and audio messages. For each message it
saves any attachment under `chat/message/<kind>/` and appends the user's record to the
JSON list in `./chat_history.json`. It then sends a canned reply and appends a record of
that reply. This project models that core and proves what it promises:

- `Identity`: the identifier a sender is logged under (`get_user_identifier`). The
  priority is username, first name, `user_<id>`, `unknown_user`, with Python's truthiness.
- `Decimal`: decimal spellings of integers (`f"{user.id}"`) and zero-padded fields, with
  the lemmas that read them back.
- `Timestamp`: the `%Y%m%d_%H%M%S` rendering of the download time and its inverse.
- `Paths`: POSIX `os.path.splitext`, the media filename, the path the file is written to
  and the path the log records.
- `Records`: the record shapes, the history keyword and the canned replies.
- `Bot`: the log file as a value (`StoredLog`) and the class `ChatStore`. Its fields are
  the log file, the separate archive file read by the history keyword, the attachment
  paths written and the replies sent. `ReadHistory`, `SaveMessage`, `StoreBotResponse`,
  `DownloadFile`, `HandleText`, `HandleMedia` and `Start` are methods on it. Each method
  states its new state in terms of the pure functions `AppendAll`, `TextEntries`,
  `MediaEntries` and `StartEntries`. Lemmas state the properties of those functions.

A Python exception in a handler is modelled as the method returning `ok == false`. The
only exception modelled is a log file whose text does not load as a JSON list
(`StoredLog.Unreadable`): text `json.loads` rejects, or a JSON value such as an object or
a number that has no `append`. A list loads whatever it holds. Its elements are `Entry`
values: a record in the handlers' shape, or any other JSON value kept as its text
(`Entry.Foreign`). Appends keep those elements. The exception aborts the handler where
the read happens. Nothing written before that point is undone: the attachment and a reply
already sent stay.

Two behaviours of the code are modelled as written, although they sit oddly with what the
bot says about itself:

- The greeting offers to "Show chat history" (telegram.py:191). But the history keyword
  reads `./message/chat_history.json` (telegram.py:86), while every append goes to
  `./chat_history.json` (telegram.py:36). So the "Chat History" reply echoes a file the
  bot never writes, not the log. If that file exists but is empty, the reply is
  `"Chat History:\n"`, not the "No chat history found." notice.
- The history keyword logs only the bot's reply, never the user's message
  (telegram.py:84-95 return before telegram.py:98).

The record's `file_path` is `./<kind>/<filename>`, relative to `chat/message`
(`Paths.RecordPathUnderMediaRoot`). It is not relative to the directory of the log file.

## Model

| member | source | states |
|---|---|---|
| Identity.GetUserIdentifier | telegram.py:25-33 | The identifier is never empty. It is the username if that is non-empty; otherwise the first name if non-empty; otherwise `user_<id>` for a non-zero id; otherwise `unknown_user`. An absent name and an empty name fall through alike. |
| Identity.SyntheticIdentifierKeepsId | telegram.py:31-33 | For a sender with no usable name, the result is `unknown_user` exactly when the id is 0. Otherwise it is `user_` followed by a decimal that reads back as the id, negative ids included. |
| Decimal.NatToString | telegram.py:32 | The decimal spelling of a natural number is non-empty, all digits, and starts with `0` only for zero, when it is exactly `"0"`. |
| Decimal.IntToStringRoundTrip | telegram.py:32 | Parsing `f"{id}"` gives back `id`, for every integer. |
| Decimal.PaddedValue | telegram.py:70 | A zero-padded strftime field reads back as the number written into it. |
| Timestamp.Stamp | telegram.py:70 | For a valid date and time, the `%Y%m%d_%H%M%S` stamp is 15 characters: an underscore at index 8 and digits everywhere else. |
| Timestamp.StampRoundTrip | telegram.py:70 | Parsing the stamp of a valid time gives back that time, field by field. |
| Timestamp.StampInjective | telegram.py:70-71 | Two valid clock readings give the same stamp if and only if they are the same second. |
| Paths.LastIndexOf | telegram.py:69 | `rfind` inside `splitext`: the result is -1 or an index holding the character, and no later index holds it. |
| Paths.SplitExt | telegram.py:69 | `splitext` splits the path: root followed by extension is the path again. |
| Paths.ExtensionShape | telegram.py:69 | An extension is empty, or a dot followed by characters that are neither dots nor slashes. |
| Paths.ExtensionInBaseName | telegram.py:69 | The extension is a suffix of the final path component. |
| Paths.ExtensionNonEmptyIff | telegram.py:69 | The extension is non-empty if and only if the final component has a dot after some character that is not a dot. Leading dots never start an extension. |
| Paths.FilenameSplitsBack | telegram.py:69-71 | `splitext` of the media filename gives back the download stamp and the resolved path's extension. |
| Paths.RecordPathUnderMediaRoot | telegram.py:73 | The saved path is `chat/message` followed by the logged `./<kind>/<filename>` path without its dot. |
| Paths.SavedPathsCollide | telegram.py:70-74 | Two downloads write to the same file if and only if they have the same kind, the same second and the same extension. |
| Records.HistoryRequestIff | telegram.py:84 | A text is the history keyword if and only if it has the keyword's length and each character is the keyword's or its upper-case form. |
| Records.HistoryReplyTellsFound | telegram.py:84-95 | The history reply starts with `"Chat History:\n"` if and only if the archive exists, and then the archive's whole text follows. Otherwise the reply is `"No chat history found."`. |
| Decimal.IntToString | telegram.py:32 | `f"{id}"`: a minus sign before the magnitude's digits for a negative id. `IntToStringRoundTrip` proves it reads back as the id. |
| Paths.Filename | telegram.py:70-71 | `f"{timestamp}{file_ext}"`: the stamp followed by the resolved path's extension. `FilenameSplitsBack` proves that splitting it returns both parts. |
| Paths.SavedPath | telegram.py:73 | `chat/message/<kind>/<filename>`. `SavedPathsCollide` proves two downloads hit one path only for the same kind, second and extension. |
| Paths.RecordPath | telegram.py:127 | `./<kind>/<filename>`, as the photo, video and audio records write it (also telegram.py:151 and telegram.py:175). `RecordPathUnderMediaRoot` relates it to the saved path. |
| Records.UserMessage | telegram.py:98-105 | A user record of type text or command with the identifier, the chat, the time and the content, and no file path or caption. `OrdinaryTextEntries` and `StartGreetingIgnoresSender` check its fields. |
| Records.UserMedia | telegram.py:121-129 | A user record of a media type with the identifier, the chat, the time, the file path and the caption, and no content. `MediaEntriesShape` checks its fields. |
| Records.BotResponse | telegram.py:56-64 | The bot's record: type text, sender bot, the chat, the time and the reply, and no username, file path or caption. Every handler lemma checks it through `IsBotRecord`. |
| Records.CaptionText | telegram.py:128 | `caption if caption else ""`: the caption when present and non-empty, otherwise the empty string. `MediaEntriesShape` states both cases. |
| Records.IsHistoryRequest | telegram.py:84 | `message.lower() == "read_chat_history"`. `HistoryRequestIff` proves it matches the keyword in any letter case and nothing else. |
| Records.HistoryReply | telegram.py:85-94 | The header followed by the archive's text, or the notice when there is no archive. `HistoryReplyTellsFound` proves the header appears exactly when the archive exists. |
| Bot.TextEntries | telegram.py:84-111 | What a text logs: only the bot's reply for the keyword, otherwise the user's text record and then the echo. `OrdinaryTextEntries` and `HistoryRequestEntries` state both cases. |
| Bot.MediaEntries | telegram.py:121-135 | What a photo, video or audio logs: the user's media record and then the reply naming the file. `MediaEntriesShape` states its fields. |
| Bot.StartEntries | telegram.py:195-207 | What `/start` logs: the command record and then the greeting record. `StartGreetingIgnoresSender` states its fields. |
| Identity.Synthetic | telegram.py:32 | `f"user_{user.id}"`. `SyntheticIdentifierKeepsId` proves the id reads back from it and that it never equals `unknown_user`. |
| Decimal.Padded | telegram.py:70 | `n` in exactly `width` digits with leading zeros: the length is `width` and every character is a digit. `PaddedValue` proves it reads back as `n`. |
| Paths.Extension | telegram.py:69 | `os.path.splitext(path)[1]`. `ExtensionShape`, `ExtensionInBaseName` and `ExtensionNonEmptyIff` together pin it down. |
| Records.Lower | telegram.py:84 | `message.lower()` on the letters A to Z, character by character. `HistoryRequestIff` states what it matches against the keyword. |
| Records.GreetingAdvertisesKeyword | telegram.py:188-193 | The greeting's third line is its item `2. Show chat history (type 'read_chat_history')`, between newlines. The keyword quoted there is one `handle_text` accepts. |
| Records.TextReply | telegram.py:109 | `"Received your text message: " + message`. `OrdinaryTextEntries` states it as the bot record's content. |
| Records.MediaReply | telegram.py:133 | `"Received your <kind>! Saved as <filename>"`, as the three media handlers write it (also telegram.py:157 and telegram.py:181). `MediaEntriesShape` states it as the bot record's content. |
| Bot.TextResponse | telegram.py:84-111 | The reply `handle_text` sends: the history reply for the keyword (telegram.py:88, telegram.py:92), otherwise the echo (telegram.py:109). `HistoryRequestEntries` states the keyword case. |
| Bot.Loaded | telegram.py:42-47 | The list an append starts from: `[]` for an absent or empty file, the stored list for a parsed one, and `None` when reading raises. `ChatStore.ReadHistory` is proved against it. |
| Bot.AppendAll | telegram.py:35-54 | The log after consecutive `save_message_to_json` calls. `AppendKeepsHistory` and `AppendAllTwice` state its properties. |
| Bot.AppendKeepsHistory | telegram.py:42-54 | After appending, a readable log holds its old elements in order, records or not, followed by exactly the new records. An absent or empty file counts as the empty list. An unreadable file is left unchanged. |
| Bot.AppendAllTwice | telegram.py:35-54 | Two appends in a row equal one append of both batches in order. |
| Bot.OrdinaryTextEntries | telegram.py:97-111 | An ordinary text logs two records, in this order. First a `text` record from the user, with the identifier, the chat, the user-side time and the message, and no file path or caption. Then a bot record with the bot-side time and `"Received your text message: " + message` in the same chat. |
| Bot.HistoryRequestEntries | telegram.py:84-95 | The history keyword logs one bot record and no user record. Its content is the header and the archive's text, or the notice when there is no archive. |
| Bot.MediaEntriesShape | telegram.py:119-135 | A media message logs two records. First a user record of the media kind with `file_path` `./<kind>/<filename>` and the caption, or `""` when it is absent or empty. Then the bot record `Received your <kind>! Saved as <filename>`. |
| Bot.StartGreetingIgnoresSender | telegram.py:185-207 | `/start` logs a user `command` record with the identifier, the chat, the user-side time and content `/start`, and no file path or caption. Then it logs the bot's greeting at the bot-side time. The greeting record is the same whoever sends the command. |
| Bot.ChatStore.ReadHistory | telegram.py:41-47 | Reading the log gives `[]` for an absent or empty file, and the stored list, whatever it holds, for a parsed one. It fails exactly when the file's text does not load as a list. |
| Bot.ChatStore.SaveMessage | telegram.py:35-54 | The new log is the old list, whatever it holds, followed by exactly the record. The call fails, leaving the file unchanged, exactly when the old file is unreadable. |
| Bot.ChatStore.StoreBotResponse | telegram.py:56-65 | Appends exactly the bot record for the reply: type text, sender bot, the chat, the reply, and no username. |
| Bot.ChatStore.DownloadFile | telegram.py:67-76 | The filename is the stamp followed by the resolved path's extension. Exactly one path, `chat/message/<kind>/<filename>`, is written. |
| Bot.ChatStore.HandleText | telegram.py:78-111 | The log grows by `TextEntries` and nothing else changes. For the keyword, the archive reply is sent even if logging it fails. For other text, nothing is sent when the user record cannot be logged. |
| Bot.ChatStore.HandleMedia | telegram.py:113-183 | The attachment is written first. The log then grows by `MediaEntries` for the computed filename. The reply naming the file is sent only after the user record was logged. |
| Bot.ChatStore.Start | telegram.py:185-207 | The log grows by the command record and then the greeting record. The greeting is sent only after the command was logged. |

## Left out

- The Telegram transport (telegram.py:1-2, telegram.py:209-222): `Application`, the handler registration, `reply_text`, `get_file`, `download_to_drive` and polling. A sent reply is appended to `ChatStore.sent`. A written attachment is appended to `ChatStore.saved` by path; its bytes are not modelled. Sending and downloading are assumed to succeed.
- Bot.ChatStore.HandleText: Telegram rejects a message longer than 4096 characters, and then `reply_text` raises (telegram.py:89, telegram.py:110). This happens for a text longer than 4068 characters, or an archive longer than 4082. The source then logs no bot record, but the contract logs it. The limit is not modelled because the unit Telegram counts in is not part of this source.
- The resolved attachment path is a parameter of `HandleMedia`. The choice of the largest photo size (`photo[-1]`, telegram.py:114) and the file id are not modelled.
- The clock: each `datetime.now().isoformat()` is an opaque string parameter (`userTime`, `botTime`). The `strftime` clock reading is a `Timestamp.DateTime` parameter.
- Timestamp.Stamp: always writes the year as four zero-padded digits. Some platforms' `%Y` does not pad years below 1000, which a current clock never returns.
- Records.HistoryRequestIff: `Lower` folds only the letters A to Z, while Python's `str.lower` folds all of Unicode. No character outside A to Z lowers to a character of the all-ASCII keyword without adding a second character, so the match is unaffected.
- JSON: the log is a list of `Entry` values, not text. `json.dumps`, indentation and `json.loads` are not modelled. A list element that is not a record is kept as opaque text (`Entry.Foreign`), so its fields are not modelled. A disk-full or permission error on write is not modelled.
- Reading the archive (telegram.py:86-88) can fail only by the file being absent. Decoding errors and a directory in its place are not modelled.
- Async execution and the lost update between concurrent read-modify-write appends. Each handler runs atomically, one after another.
- Bootstrap (telegram.py:11-23) and the `os.makedirs` call for the log's directory (telegram.py:39), which does nothing for `.`.
- `splitext` is the POSIX one: `/` is the only separator.
