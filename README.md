# Command logging of the UEIK Discord bot, modelled in Dafny

The repository runs a Discord bot beside a small web process. Two pieces of
sequential logic sit inside that glue, and this project models and proves both.

- **The command log of the web process (`api.py`).** This is a module-level list
  `logs` of `{user, command, time}` records, oldest first. Both command handlers
  (`on_command` and the `/ping` slash command) append a record and then drop the
  head when the list holds more than ten. `GET /logs` returns the list, wrapped
  as `{"logs": logs}`.
  The model is the class `CommandLog.LogBuffer`. It holds the list as a `seq`, plus
  a ghost history of every record appended. Its invariant is that the list equals
  `Window(history)`: the last `min(|history|, 10)` records, oldest first.
- **The command recogniser of the bot process (`bot.py`).** `on_message` drops
  messages written by bots. It logs `name#discriminator` and the first
  whitespace-delimited word after the prefix `!`, then hands the message to the
  command dispatcher. `on_interaction` logs the name of a slash command.
  - These decisions are modelled as pure functions: `PrefixCommands.OnMessage`,
    `PrefixCommands.ReachesProcessCommands` and `PrefixCommands.OnInteraction`.
  - Python's `str.split()` is modelled as it behaves. Runs of Python whitespace
    count as one separator, and leading or trailing whitespace gives no word.
  - A message that is the bare prefix, or the prefix followed only by whitespace
    (`"!"`, `"!   "`), makes `split()` return an empty list, and `[0]` raises
    `IndexError`. The model returns `Failure(IndexError)`. Nothing is logged and
    the dispatcher is not reached.

The two files disagree, and the model keeps each file's own behaviour:
- For a message that reaches `on_command`, the web process stores the whole
  message text, and for the slash command it stores `/ping`. The bot process stores only the first word
  after the prefix.
- The web process labels users `name#discriminator (ID:id)`. The bot process
  labels them `name#discriminator`.

`LogFormats.PrefixCommandRecords` states this difference for one message: the
record `on_command` builds for it, if it reaches that handler, and the call the
bot process makes.

Timestamps are opaque strings. The two processes format them differently: the
web process appends ` UTC` and the bot process does not. Account ids are
rendered in decimal, as an f-string renders a Python `int`.

Choices fixed by the code:
- The capacity is 10 (api.py:57).
- The head is dropped after the append, not before it (api.py:56-58).
- A bare prefix raises `IndexError` (bot.py:59).

Files: `wrappers.dfy` (Option and Result), `records.dfy` (authors, records,
decimal ids), `command_log.dfy` (`api.py`), `prefix_commands.dfy` (`bot.py`),
`log_formats.dfy` (the comparison of the two).

## Model

| member | source | states |
|---|---|---|
| Records.Decimal | api.py:52 | the rendered account id is a non-empty digit string with no leading zero unless it is `0` |
| Records.DecimalRoundTrip | api.py:52 | reading the rendered id back as a decimal number gives the id |
| Records.DecimalInjective | api.py:67 | different ids never render the same |
| CommandLog.Window | api.py:29-30 | the log kept from a history is its last min(n, 10) records, a suffix of the history |
| CommandLog.AppendKeepsBound | api.py:56-58 | appending to a log of at most 10 records leaves at most 10 |
| CommandLog.AppendBelowCapacity | api.py:56-58 | below 10 records, appending yields `old + [entry]` and evicts nothing |
| CommandLog.AppendAtCapacity | api.py:71-73 | at 10 records, appending yields `old[1:] + [entry]`: only the oldest record goes and the length stays 10 |
| CommandLog.AppendLastAndOrder | api.py:56-58 | the new record is last, and the records before it are the newest old ones in their old order |
| CommandLog.WindowAppend | api.py:56-58 | one append step maps the window of a history to the window of the history extended by the record |
| CommandLog.ReplayIsWindow | api.py:30-58 | appending a sequence of records one by one to the empty log leaves exactly its last min(n, 10) records, oldest first |
| CommandLog.AppendEvict | api.py:56-58 | definition, no contract: one `logs.append(entry)` followed by `logs.pop(0)` when the list holds more than ten (the same code as api.py:71-73) |
| CommandLog.Replay | api.py:56-58 | definition, no contract: the list after appending each record of a sequence in turn, starting from the empty list of api.py:30 |
| CommandLog.ApiUser | api.py:52 | definition, no contract: the web process's user label `name#discriminator (ID:id)` (also api.py:67) |
| CommandLog.CommandEntry | api.py:51-55 | the `on_command` record holds the raw message text as its command, the labelled user and the time |
| CommandLog.PingEntry | api.py:66-70 | the `/ping` record holds the literal command `/ping`, the labelled user and the time |
| CommandLog.ApiUserCarriesId | api.py:52 | the stored user label ends in `(ID:digits)` and the digits give back the account id |
| CommandLog.ApiUserDistinguishesIds | api.py:67 | two accounts with the same label have the same id |
| CommandLog.ApiUserExtendsTag | api.py:52 | the stored label begins with `name#discriminator` |
| CommandLog.LogBuffer.constructor | api.py:30 | the log starts empty, with an empty history |
| CommandLog.LogBuffer.Append | api.py:56-58 | the list becomes the append-and-evict of the old list, keeps at most 10 records with the new one last, and stays the window of the history extended by the record |
| CommandLog.LogBuffer.OnCommand | api.py:48-60 | `on_command` appends the record of the message text and keeps the invariant |
| CommandLog.LogBuffer.Ping | api.py:62-73 | `/ping` appends the record with command `/ping` and keeps the invariant |
| CommandLog.LogBuffer.Snapshot | api.py:93-95 | `GET /logs` returns the current list (the value under its `logs` key) and changes nothing: the last at most 10 records appended, oldest first |
| Records.UserTag | bot.py:47 | definition, no contract: the user label `name#discriminator` (also bot.py:58) |
| PrefixCommands.IsSpace | bot.py:59 | definition, no contract: the characters Python's `str.isspace` accepts, which `split()` separates on |
| PrefixCommands.StartsWithPrefix | bot.py:57 | definition, no contract: `content.startswith(PREFIX)` with `PREFIX = "!"` |
| PrefixCommands.SplitFrom | bot.py:59 | definition, no contract: the words of the text from an index on, scanning as CPython's `split()` does |
| PrefixCommands.Split | bot.py:59 | definition, no contract: Python's `str.split()` with no argument |
| PrefixCommands.SkipSpace | bot.py:59 | the scan stops at the first non-whitespace character at or after the start, or at the end |
| PrefixCommands.SkipWord | bot.py:59 | the scan stops at the first whitespace character at or after the start, or at the end |
| PrefixCommands.SplitEmpty | bot.py:59 | `split()` returns no word exactly when the text is all whitespace, which is when `[0]` raises |
| PrefixCommands.SplitWords | bot.py:59 | every word of `split()` is non-empty and free of whitespace |
| PrefixCommands.SplitKeepsText | bot.py:59 | the words of `split()`, laid end to end, are the text with its whitespace removed |
| PrefixCommands.SplitFirstWord | bot.py:59 | if the first maximal whitespace-free run of the text is `w`, then `split()[0]` is `w` |
| PrefixCommands.SplitFirstWordAt | bot.py:59 | conversely, `split()[0]` is the first maximal whitespace-free run, after the leading whitespace |
| PrefixCommands.OnMessage | bot.py:53-60 | a bot's message or one without the prefix is not logged; `!` followed only by whitespace raises; otherwise the call logs `name#discriminator` and `split()[0]` of the text after the prefix, a non-empty whitespace-free command |
| PrefixCommands.ReachesProcessCommands | bot.py:55-61 | definition, no contract: whether `await bot.process_commands(message)` runs, that is neither the early return for bots nor the `IndexError` of `[0]` |
| PrefixCommands.ProcessCommandsReached | bot.py:55-61 | the dispatcher is reached exactly for a person's message that does not raise, that is one without the prefix or with a non-space after it |
| PrefixCommands.PlainMessageDispatched | bot.py:57-61 | a person's message without the prefix is not logged but is dispatched |
| PrefixCommands.PrefixMessageLogsFirstWord | bot.py:57-61 | for `!` + `rest` from a person, the logged command is the first word of `rest` and the message is dispatched |
| PrefixCommands.PingWithArguments | bot.py:59 | `"!ping extra args"` logs `ping` |
| PrefixCommands.PingAfterSpaces | bot.py:59 | `"!  ping"` logs `ping` |
| PrefixCommands.BarePrefixRaises | bot.py:59-61 | `!` followed only by whitespace raises, and the dispatcher is not reached |
| PrefixCommands.OnInteraction | bot.py:44-50 | only application commands are logged, under `name#discriminator`, with the payload's `name` or `""` when it is absent |
| PrefixCommands.SendLog | bot.py:24-32 | the posted record has exactly the time, and the user and command passed through unchanged |
| LogFormats.PrefixCommandRecords | api.py:51-55 | for the same prefix message, the record `on_command` builds for a message that reaches it (api.py:51-55) holds the whole text, and the bot process (bot.py:58-59) posts its first word under a label that begins the web process's label |

## Left out

- The Discord client is not modelled. This covers setup, intents, event dispatch, `bot.tree.sync`, `bot.start`, `bot.run`, `bot.close`, the interaction's `response.defer` and `followup.send`, and the `process_commands` dispatcher. These are calls into a third-party gateway library. Of the dispatcher, the model keeps only whether it is reached.
- `CommandLog.LogBuffer.Ping` assumes that `interaction.response.defer()` (api.py:64) returns. If that gateway call raised, the handler would append no record, but the model always appends.
- `CommandLog.LogBuffer.OnCommand` takes the message text as given. Which messages reach `on_command` is decided by discord.py's dispatcher: only a registered prefix command, which in api.py is the library's default `help`.
- The FastAPI app, its lifespan, the uvicorn server and the health-check endpoint are not modelled. They are HTTP plumbing with no logic beyond a constant message and the clock.
- Concurrency between the bot's event loop and the HTTP handlers is not modelled. Both run on one asyncio loop, and an append has no suspension point, so each append is modelled as one atomic step.
- `CommandLog.LogBuffer.Snapshot` returns the records as a value. In the source, `get_logs` returns the dictionary `{"logs": logs}`, whose one key holds the list object itself, and the framework serialises it at once. The dictionary wrapper and that aliasing are not modelled.
- The `requests.post` call and the exception it swallows are not modelled, because they are network I/O. `SendLog` gives the posted record, and it never fails.
- Logging configuration, `logger.info` and `print` are not modelled. They are output side effects only.
- Clocks and the environment are not modelled. `datetime.utcnow()` and `strftime` become an opaque `now` string. `load_dotenv` and `os.getenv` are left out.
- `PrefixCommands.OnInteraction` takes the payload as a map from strings to strings. `str(raw)` of a non-string `name` value is not modelled.
- `CommandLog.LogBuffer.Append` requires the class invariant. The Python list has no such precondition, but the invariant holds from the moment the module creates the empty list, and only these handlers change it.
