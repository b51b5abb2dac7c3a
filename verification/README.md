# Multi-bot Telegram host: decision logic, modelled in Dafny

The repository runs many Telegram bots from one FastAPI process. This model
covers the decision logic inside its glue code:

- **Channel gating** (`config.py`). The required-channel list of a bot comes
  from a JSON list or from a comma-separated JSON string. Each entry is
  trimmed and blank entries are dropped. The owner and admin ids default to
  empty lists. The membership check scans the channels in order:
  - a `left` or `kicked` status rejects the user at once;
  - a not-ok answer warns every owner and skips the channel;
  - a lookup that raises skips the channel;
  - otherwise the user passes.
- **Bot ids and the store** (`script.py`). A bot id is the text of its token
  before the first `:`. The registry file and the per-bot configuration files
  are modelled as a `Store` object with default values for missing files.
- **Endpoints** (`main.py`):
  - `/add-bot` inserts into the registry and rejects duplicates;
  - `/edit-file` and `/save-file` accept only registered tokens, and saving
    writes only content that parses as JSON;
  - `/webhook` keeps a token-to-dispatcher cache that is built the first time
    a token is seen.
- **Replies** (`bot_setup.py`). The start command gets a fixed text. Any
  other message is greeted exactly when it contains `hi` in any letter case.

Files: `wrappers.dfy` (Option), `text.dfy` (Python's `strip`, `lower`,
`split` and substring test on ASCII), `json.dfy` (parsed JSON values and file
states), `config.dfy`, `script.dfy`, `bot_setup.dfy`, `web_server.dfy` (for
`main.py`).

Inputs that the model does not compute:
- The Telegram API's answer to each membership lookup is the input
  `answers: seq<Lookup>`; `answers[i]` answers the lookup for the i-th channel.
- The webhook registration's outcome is the input `webhookError`.
- Whether building the client and dispatcher for a new webhook token raises
  is the input `buildFails`.
- Whether saved content parses as JSON is the input `parses`.
- The public base URL is the field `publicUrl`.

Two behaviours of the source worth stating plainly:
- A lookup that raises skips the channel and warns nobody (config.py:74-76).
  Only a not-ok answer warns the owners.
- The replies are fixed; no stored configuration is read (bot_setup.py:5-14).

## Model

| member | source | states |
|---|---|---|
| `Text.Strip` | config.py:18 | the result has no whitespace at either end; it is empty exactly when the input is all whitespace; an already trimmed string is returned unchanged |
| `Text.StripIsSlice` | config.py:18 | the stripped string is the slice of the input left after cutting whitespace, and only whitespace, off both ends |
| `Text.StripIdempotent` | config.py:18 | stripping twice is stripping once |
| `Text.StripOmitsNothingNew` | config.py:18 | stripping never introduces a character the input lacks |
| `Text.OccursStrip` | bot_setup.py:12-13 | a word with no whitespace at its ends occurs in the stripped text exactly when it occurs in the raw text |
| `Text.Lower` | bot_setup.py:12 | same length as the input, each character lower-cased on its own |
| `Text.Split` | config.py:20 | at least one piece; no piece holds the separator; the first piece is the prefix before the first separator (or the whole string) |
| `Text.JoinSplit` | config.py:20 | joining the pieces of a split with the separator gives back the input |
| `Config.Kept` | config.py:18 | one entry contributes at most one channel, non-empty and trimmed |
| `Config.Clean` | config.py:18 | every kept entry is non-empty and trimmed; no more entries than the input |
| `Config.CleanAppend` | config.py:18 | the cleaned result of a concatenation is the concatenation of the cleaned results (order is kept) |
| `Config.KeptFrom` | config.py:18 | every channel kept comes from some entry of the input |
| `Config.KeptIn` | config.py:18 | what any entry contributes appears among the channels kept |
| `Config.CleanMembers` | config.py:18 | a string is kept exactly when it is what some entry contributes: that entry's stripped form, when it is not blank |
| `Config.RequiredChannels` | config.py:9-23 | every channel is non-empty and trimmed; a missing or unreadable file gives no channels |
| `Config.ListChannelsInOrder` | config.py:17-18 | a list payload is processed entry by entry in list order |
| `Config.SingleChannel` | config.py:18 | a one-entry list gives that entry stripped, or nothing when it is blank |
| `Config.NonStringEntryRejectsList` | config.py:14-23 | a list holding a non-string entry gives no channels (its `strip()` raises and the error is swallowed) |
| `Config.StringPayloadIsCommaList` | config.py:19-20 | a string payload gives the same channels as the list of its comma-separated pieces |
| `Config.StringPayloadHasNoCommas` | config.py:19-20 | no channel from a string payload holds a comma, and the pieces rejoin to the payload |
| `Config.ListChannels` | config.py:17-18 | a list of strings gives the cleaned list of those strings |
| `Config.StringsOfWrap` | config.py:19-20 | reading back a list of wrapped strings gives the strings |
| `Config.CleanAvoids` | config.py:18-20 | a character that no entry holds appears in no kept channel |
| `Config.OtherPayloadsYieldNothing` | config.py:17-23 | a JSON payload that is neither a list nor a string gives no channels |
| `Config.AuthorIds` | config.py:26-38 | a missing, unreadable or non-object file gives two empty lists; otherwise "owner" and "admin" are read, each defaulting to the empty list |
| `Config.OwnerChats` | config.py:64 | a list of owners is visited entry by entry; a string is visited character by character, each as a one-character string; any other value yields no chats |
| `Config.FirstBlocking` | config.py:54-72 | the index of the first `left`/`kicked` answer: nothing before it blocks, and it blocks unless it is the end |
| `Config.Broadcast` | config.py:64-67 | one notice per owner, in owner order, each with the same text |
| `Config.NotifyOwners` | config.py:64-67 | the owner loop sends exactly the broadcast of the warning to the owners |
| `Config.WarningsCount` | config.py:63-68 | a scan sends exactly one warning per owner for each not-ok answer |
| `Config.ScanChannels` | config.py:53-78 | the scan over the channels: the user passes exactly when no answer is `left`/`kicked`; lookups stop right after the first blocking channel; the warnings sent are those of the not-ok answers among the lookups made, to every owner in order |
| `Config.IsUserSubscribed` | config.py:41-78 | the user passes exactly when no answer is `left`/`kicked`; the scan makes lookups up to and including the first blocking channel (none when there are no channels); the warnings sent are those of the not-ok answers among the lookups made, to every owner in order |
| `Config.LaterAnswersIgnored` | config.py:70-72 | once a channel blocks, the answers for later channels never change the outcome |
| `Config.FailOpen` | config.py:63-76 | a lookup that raised or answered not-ok counts as if the user were a member |
| `Script.GetBotId` | script.py:35-37 | the id is a colon-free prefix of the token that ends at the first `:`; a token without `:` is returned unchanged |
| `Script.GetBotIdIdempotent` | script.py:37 | taking the id of an id changes nothing |
| `Script.GetBotIdUnique` | script.py:37 | the id is the only colon-free prefix ending at the first `:` or at the end |
| `Script.GetBotIdIgnoresSecret` | script.py:37 | the part after the first `:` never affects the id |
| `Script.GetBotIdExample` | script.py:36-37 | `123456:ABCDEF` gives `123456` |
| `Script.GetBotIdNoColonExample` | script.py:37 | a token without a colon is its own id |
| `Script.Store.LoadBots` | script.py:25-29 | the saved registry, or an empty one when none exists |
| `Script.Store.SaveBots` | script.py:31-33 | the registry file is overwritten, configurations are untouched, and loading afterwards returns what was saved |
| `Script.Store.LoadBotConfig` | script.py:39-44 | the stored document for the id, or the default document `{start_msg: "Hello! I am your bot 🤖", commands: {}, keywords: {}}` |
| `Script.Store.WriteConfig` | main.py:94-95 | one configuration file is overwritten and nothing else changes |
| `BotSetup.OccursHi` | bot_setup.py:13 | `"hi" in s` holds exactly when some `h` is directly followed by an `i` |
| `BotSetup.SaysHiIgnoresCase` | bot_setup.py:12-13 | the handler's test on `text.lower().strip()` holds exactly when the raw text has an `h` followed by an `i`, each letter in either case |
| `BotSetup.Reply` | bot_setup.py:5-14 | the start command always gets "Hello! This is start message."; a message without text gets nothing; any other message gets "Hello there!" exactly when it contains "hi" in any letter case |
| `BotSetup.UpperCaseIsGreeted` | bot_setup.py:12-14 | `HI all` is greeted |
| `BotSetup.SubstringIsGreeted` | bot_setup.py:12-14 | `this` is greeted, because the test is a substring test |
| `BotSetup.HelloIsNotGreeted` | bot_setup.py:12-14 | `Hello` is not greeted |
| `WebServer.RegisteredAfterAdd` | main.py:31-32 | inserting an entry registers its token and keeps every earlier token registered |
| `WebServer.FindBotByToken` | main.py:66 | finds an entry exactly when some entry holds the token, and the entry found holds that token |
| `WebServer.BotClient.constructor` | main.py:113 | the client is built for the given token |
| `WebServer.Dispatcher.constructor` | main.py:114 | a new dispatcher has no handlers yet |
| `WebServer.Dispatcher.SetupHandlers` | main.py:116 | after setup the dispatcher has its handlers |
| `WebServer.Dispatcher.FeedUpdate` | main.py:123-127 | the reply is the one the handlers give; a payload that is not a valid update gives none |
| `WebServer.Server.constructor` | main.py:105-106 | both caches start empty |
| `WebServer.Server.AddBot` | main.py:18-57 | missing or empty fields and an existing name are rejected and nothing is written; otherwise the registry gains exactly `name ↦ {token}`; a default configuration is written only when none exists for the bot id; the result is a failure if webhook setup fails, and the writes stay in place |
| `WebServer.Server.EditFile` | main.py:63-79 | an unregistered token gives the invalid-token fragment; a registered token without a configuration gives the missing-file fragment; otherwise the editor shows the stored configuration |
| `WebServer.Server.SaveFile` | main.py:82-98 | only a registered token with content that parses as JSON overwrites that bot's configuration with the content; otherwise nothing changes and the matching error fragment is returned; the registry is never touched |
| `WebServer.Server.Webhook` | main.py:108-129 | a known token leaves both caches unchanged; a new token adds fresh entries for it alone, unless building them raises, in which case nothing is cached, no ok is answered and no reply is sent; otherwise the answer is ok and the reply is the handlers' reply |
| `WebServer.RetryAfterFailedWebhook` | main.py:27-55 | after an add whose webhook setup failed, adding the same name again is refused with "Bot already exists" |

## Left out

- HTTP calls to the Telegram API through aiohttp. Each membership lookup is an input outcome, and each warning is a returned `Notice`. The bot token and user id in the lookup URLs are not modelled.
- Config.IsUserSubscribed: assumes sending a warning never raises. In the source, a raising warning request ends that channel's owner loop early; the exception is caught and the channel skipped. The model always sends the full broadcast.
- Config.OwnerChats: an "owner" value that is a JSON object is visited as empty. Python would visit its keys in insertion order, which a Dafny `map` does not keep. Numbers, booleans and null are also visited as empty; in the source their iteration raises, and the channel is skipped without warnings, which gives the same result.
- aiogram: how the `Command` filter recognises the start command (prefix, mention, arguments), the routing order, `set_webhook`/`delete_webhook`, session closing, and sending the reply over the network. Updates arrive already classified as `Incoming`. The webhook registration's outcome is the input `webhookError`. Which tokens the aiogram client refuses to build for is not modelled; the input `buildFails` says whether building raised.
- FastAPI routing, request parsing, HTML markup, and the exception text inside the invalid-JSON fragment. Pages are the constructors of `Page`.
- JSON parsing and serialisation. Files hold parsed values (`FileState`, `Document`), and JSON numbers are integers only. `Script.Store.LoadBotConfig` returns a raw saved text as it is stored, not parsed. `EditFile` shows the stored document rather than its text.
- File-system details: paths, `os.path.exists`, `open`, directory creation, a bot id that is not a valid file name, and a registry file that does not parse or has entries without a `token`.
- WebServer.Server.AddBot: `bot_name` and `token` are strings or absent. A non-string JSON value in the request body is not modelled.
- The startup and shutdown loops that register and remove every bot's webhook, and the `/` health endpoint: these are pure I/O with each error logged.
- Concurrency: async interleaving and races on the registry file and on the caches.
- Unicode behaviour of `strip()` and `lower()`: only ASCII whitespace and ASCII letters are treated.
- `common_data.py` (constants and environment lookups). `PUBLIC_URL` is the field `publicUrl`.
- Console logging (`print`).
