# Telegram file relay bot — a Dafny model of its core

The bot takes any media a user sends and forwards it into one private
archive channel. It then stores a record under a fresh 9-digit token and
replies with that token. Anyone who sends `/file <token>` later gets the
archived copy forwarded back. Each user also picks a language once, from an
inline menu, and that choice is meant to localize every reply (as written,
every localized reply fails instead; see "## Findings").

This project models the core of `bot.py`:

- the token generator (`generate_unique_id`);
- the two MongoDB collections and their unique indexes, as maps keyed by
  `unique_id` and by `user_id`;
- the archive channel, as a map from channel message id to the message it
  copies;
- the four handlers: `handle_file`, `get_file`, `start` and
  `language_callback`;
- the pure helpers: `get_user_language`, `get_text`,
  `get_channel_identifier`, the media classification chain, and the
  callback-data split.

Modules, one per component:

- `Wrappers`: Option, Result and the Python exceptions that steer control flow.
- `Numerals`: `str()` and `int()` of Python, and the 9-digit tokens.
- `Strings`: `strip()`, `startswith()` and `split()`.
- `Channel`: `get_channel_identifier`.
- `Telegram`: the incoming user and message.
- `Media`: the if/elif classification.
- `Locale`: the users collection, the language lookup, the menu and the upsert.
- `Bot`: the files collection, the archive and the class `FileBot`, whose
  methods are the handlers.

Inputs the bot cannot see become parameters:

- the draws of `random.randint` are a sequence of candidates;
- `datetime.utcnow()` is an opaque `now`;
- whether Telegram accepts a forward is a boolean;
- `PRIVATE_CHANNEL_ID` is an optional string (`None` when unset).

The central invariant is `Bot.Consistent`, which `FileBot.Valid` includes:

- every record is stored under its own token;
- every token is nine digits without a leading zero;
- every record names an archived copy of its own original message;
- no two records share an archived copy.

`HandleFile` keeps it because it relays before it records: it mints a token
and inserts only after a forward that succeeded.

Where the design notes and the code disagree, the model follows the code:

- A duplicate `unique_id` at insert time is not retried. It reaches the
  generic `except` (bot.py:292-294), and the user gets the error reply.
  Within one process it cannot happen: nothing is awaited between the
  pre-check at bot.py:110 and the insert at bot.py:273, and the MongoDB calls
  are synchronous. `FileBot.InsertOne` still models the unique index, and
  `HandleFile` sends the error reply on that branch.
- The confirmation text is built after the insert (bot.py:287), inside the
  `try`. When `get_text` fails there, the record stays stored and the user
  still gets the error reply. `HandleFile` states this: its files
  postcondition does not depend on the reply.

## Model

| member | source | states |
|---|---|---|
| `Numerals.DecimalString` | bot.py:109 | `str(n)` of a non-negative int is a non-empty string of decimal digits, and it starts with '0' only for n = 0 |
| `Numerals.DigitsValueOfDecimal` | bot.py:109 | reading back the digits `str(n)` printed gives n again |
| `Numerals.CandidateToken` | bot.py:109 | a draw of `randint(100000000, 999999999)`, printed, is a token: nine digits, no leading zero, and it reads back as the draw |
| `Numerals.CandidateTokenInjective` | bot.py:109 | two draws print the same token exactly when they are equal |
| `Numerals.TokenIffCandidate` | bot.py:109 | a string is a token if and only if it is the printed form of some draw in [100000000, 999999999] |
| `Numerals.ParseInt` | bot.py:126-131 | `int(s)` succeeds exactly on an optional sign followed by at least one digit; otherwise it raises ValueError |
| `Numerals.ParseIntString` | bot.py:126-129 | `int(str(n)) == n` for every integer n, negative ones included |
| `Strings.Strip` | bot.py:122 | `strip()` returns nothing longer than its input, and the result neither starts nor ends with whitespace |
| `Strings.StripIsSlice` | bot.py:122 | the result of `strip()` is one contiguous slice of its input, and everything cut off before and after that slice is whitespace |
| `Strings.StripPadded` | bot.py:122 | stripping whitespace padding off a string that has none of its own gives that string back |
| `Strings.TakeUntil` | bot.py:160 | the part before the first separator is a prefix without the separator, and it ends at a separator or at the end of the input |
| `Channel.GetChannelIdentifier` | bot.py:121-131 | an unset variable raises AttributeError. A "-100" value that is not an integer raises ValueError. A numeric id is returned only for a value that does not start with '@' and parses as that integer. A name is returned only as the stripped value, when it starts with '@' or is not an integer. No other exception is raised, so these clauses fix the result on every input |
| `Channel.NumericChannel` | bot.py:121-131 | a channel configured as `str(n)`, with any whitespace around it, is addressed by the integer n, including the "-100..." supergroup form |
| `Channel.NamedChannel` | bot.py:121-131 | a channel configured as a plain name that is not an integer and does not start with "-100", with any whitespace around it, is addressed by that name |
| `Channel.HandleChannel` | bot.py:121-124 | a channel configured as an "@handle", with any whitespace around it, is addressed by that handle |
| `Media.Rank` | bot.py:221-256 | each media kind sits at its own position in the document, photo, video, audio, voice, video_note, animation, sticker order |
| `Media.Classify` | bot.py:221-256 | the chosen kind is present in the message, every kind before it in the order is absent, and there is no result exactly when the message carries no media. The result holds that object's file_id and file_size, and its file_name only for document, video, audio and animation (`Describe`) |
| `Media.ClassifyPrefersEarlier` | bot.py:221-256 | whenever some kind is present, a kind is chosen, and it does not rank after that kind |
| `Locale.GetUserLanguage` | bot.py:113-115 | as intended, the result is the user's stored language, or 'en' when there is no record or the record has no language |
| `Locale.LookupAsWrittenNeverAnswers` | bot.py:114 | for every collection and user, the written lookup never returns what the intended lookup returns |
| `Locale.LookupAsWrittenExample` | bot.py:114 | for user 7, who chose Hebrew, the intended lookup gives "he" while the written one raises |
| `Locale.GetText` | bot.py:117-119 | the text is found exactly when the user's language is in the table and English has the key. It is the language's own text when that language has the key, and English's otherwise. Any failure is KeyError |
| `Locale.GetTextAsWritten` | bot.py:117-119 | over the lookup as written, `get_text` always raises UnboundLocalError |
| `Locale.EnglishByDefault` | bot.py:113-119 | a user with no record, or with no language in the record, gets the English text of every key |
| `Locale.GetTextDefined` | bot.py:117-119 | when English defines every key and the user's stored language is in the table, `get_text` never raises |
| `Locale.CallbackData` | bot.py:141-146 | a menu button's callback data is "lang_" followed by the tag |
| `Locale.CallbackLanguage` | bot.py:160 | `data.split('_')[1]` is the text after "lang_" up to the next '_' or the end, and it contains no '_' |
| `Locale.CallbackRoundTrip` | bot.py:141-160 | the callback data of a tag without '_' splits back to that tag |
| `Locale.LanguageMenu` | bot.py:140-147 | the keyboard has one button per menu language, in order. Each button shows the language's name, and its data selects exactly that language |
| `Locale.Upsert` | bot.py:162-172 | afterwards the user has exactly one record, holding the new language, name and timestamp, and every other record is unchanged |
| `Locale.UpsertKeepsIndex` | bot.py:42 | the upsert keeps one record per user_id, and it adds a record only for a user not seen before |
| `Locale.UpsertThenLookup` | bot.py:160-172 | after the upsert, the user's language is the chosen tag |
| `Locale.UpsertLastWins` | bot.py:162-172 | two upserts for one user leave the same collection as the second one alone: the last choice overwrites and never duplicates |
| `Bot.Insert` | bot.py:273-285 | the insert succeeds exactly when the unique_id is new, and then adds that one record and changes nothing else. Otherwise it fails with DuplicateKeyError |
| `Bot.InsertKeepsIndex` | bot.py:41 | a successful insert grows the collection by one and keeps one record per unique_id |
| `Bot.FirstFreeIndex` | bot.py:107-111 | the loop stops at the first draw whose printed form is free, and every draw before it is taken |
| `Bot.FirstDrawFree` | bot.py:107-111 | when the first draw is free, it is the token, without a second draw |
| `Bot.FirstFree` | bot.py:107-111 | the generated token is a 9-digit token that is not a key of the files collection, and every earlier draw was already taken |
| `Bot.RelayKeepsConsistent` | bot.py:265-269 | a relay that is not followed by a record leaves only an orphan copy, and the invariant still holds |
| `Bot.RecordKeepsConsistent` | bot.py:271-285 | a record under a fresh token that names the copy just relayed keeps every record backed by a copy of its own message |
| `Bot.FileBot.constructor` | bot.py:37-42 | the bot starts with empty collections and an empty archive, and the invariant holds |
| `Bot.FileBot.GenerateUniqueId` | bot.py:107-111 | the loop returns the first draw whose printed form is not a key of the files collection; it is a token, and the collection is only read |
| `Bot.FileBot.InsertOne` | bot.py:41 | `insert_one` under the unique index: it succeeds exactly when the unique_id is new, and otherwise the collection is unchanged |
| `Bot.FileBot.ForwardToArchive` | bot.py:265-269 | a forward that succeeds adds a copy of the message under a fresh channel message id; a forward that fails changes nothing |
| `Bot.FileBot.HandleFile` | bot.py:212-294 | without media or with an empty file_id: the send_file reply, nothing forwarded or stored. Channel identifier error or failed forward: the error reply, files and archive unchanged. Otherwise the archive gains a copy of the message and exactly one record is added under the generated token, naming that copy, and the confirmation carries that token. A changed files collection implies the forward succeeded first. The invariant is kept |
| `Bot.FileBot.RelayAndRecord` | bot.py:262-288 | a failed forward gives the error reply and changes neither files nor archive. A successful one adds a copy under a fresh id, then exactly one record under the generated token naming that copy, and the confirmation carries the token. The invariant is kept |
| `Bot.FileBot.MintAndInsert` | bot.py:271-288 | after a successful relay, the record naming the new copy is stored under the generated token, the collection grows by exactly one, and the confirmation carries that token |
| `Bot.FileBot.GetFile` | bot.py:296-325 | no argument: the send_file reply, no forward. Unknown token: the file_not_found reply with that token, no forward. Known token and a working channel identifier: the only forward is of the record's channel_message_id, which names an archived copy of the original message, and the reply is file_retrieved, or the error reply when that forward fails. The collections are only read |
| `Bot.FileBot.Start` | bot.py:133-153 | a user whose record has a language gets the welcome (a failing `get_text` escapes); anyone else gets the language menu |
| `Bot.FileBot.LanguageCallback` | bot.py:155-175 | the users collection becomes the upsert of the chosen tag, and the user's language is that tag. The replies are the "language set" edit and then the welcome, cut short if the edit's `get_text` raises |
| `Bot.UnissuedTokenNotFound` | bot.py:305-309 | "000000000" is never a stored token, so `/file 000000000` always gets the not-found reply |
| `Bot.StoreThenRetrieve` | bot.py:212-325 | on a fresh bot, a stored file confirms the first draw as its token in English, and `/file` with that token, by any user, forwards the archived copy of that very message |
| `Bot.StoreAsWritten` | bot.py:271-294 | with the lookup as written, handle_file still stores the record under the first draw, but the reply is the error reply, never the confirmation carrying the token |

## Findings

| source | as written | input that shows it | evidently intended | confidence | as-written member | corrected member |
|---|---|---|---|---|---|---|
| bot.py:114 | `users_collection.find_one({'user_id': user.id})` reads the local `user` before it is assigned, so every call raises UnboundLocalError | any call, e.g. user 7 whose record holds language "he" | look the user up by the `user_id` parameter | high (Python scoping); not executed | `Locale.GetUserLanguageAsWritten`, `Locale.LookupAsWrittenExample`, `Bot.StoreAsWritten` | `Locale.GetUserLanguage` |

As written, this error reaches every `get_text` call:

- `start` for a returning user, `language_callback` after its upsert, and
  `get_file`'s "send a file" and "not found" replies all end in an unhandled
  exception.
- `handle_file` inserts the record and then fails at bot.py:287. The user
  gets the error reply and never sees the token
  (`Bot.StoreAsWritten`).
- `get_file` forwards the file and then sends the error reply instead of
  the confirmation.

The rest of the model uses the corrected lookup.

## Left out

- Telegram transport: reply_text, edit_message_text, query.answer and the
  inline keyboard markup are reduced to the `Response` values. A forward is
  an abstract call that either fails or yields a fresh channel message id.
- The chat a channel identifier resolves to is not modelled. The archive is
  the one channel. A wrong identifier shows up as a forward that fails.
- Bootstrap is left out: the MongoDB client, ping, TLS, timeouts and the
  environment variables other than PRIVATE_CHANNEL_ID (bot.py:17-42). Only
  the map semantics of the two collections and their unique indexes remain.
  The MongoDB `_id` field is not modelled.
- The best-effort welcome-video forward (bot.py:188-195, bot.py:203-210) is
  not modelled. Its failure is only logged, and it never changes a reply or
  a collection.
- Text is not modelled beyond the table: the contents of LANGUAGES, the
  emoji strings, `.format()` substitution (the argument is carried beside
  the template), the fixed multilingual menu prompt (bot.py:151), and the
  exception text appended to the error reply.
- Logging is not modelled.
- `main` and the handler registration (bot.py:327-344) are not modelled,
  except for the `^lang_` pattern. That pattern becomes the precondition of
  `LanguageCallback`.
- Concurrency and asyncio scheduling are not modelled: the model is
  sequential. Races between several bot processes on the same collections
  are out of scope.
- Randomness and the clock are parameters. The draws are a sequence, and
  `utcnow()` is an integer.
- Python `strip()` removes only ASCII whitespace and U+001C to U+001F here.
  The Unicode spaces it also removes are left out.
- `int()` is an optional sign followed by ASCII digits here. Underscores and
  non-ASCII digits are left out.
- Bot.FileBot.HandleFile: it requires a free draw among the candidates even
  on paths that never draw, because that termination hypothesis of
  `generate_unique_id` is stated once for the whole call.
- Bot.FileBot.RelayAndRecord: it requires a free draw even when the forward
  fails and nothing is drawn, for the same reason.
- Bot.FileBot.GenerateUniqueId: it requires that some draw is free. The
  source loops forever when the token space is exhausted, and the model does
  not capture that non-termination.
