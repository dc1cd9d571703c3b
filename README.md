# terrabot-discord: the interaction handler, modelled in Dafny

The bot is one AWS Lambda function that answers Discord interaction webhooks
(`src/lambda_function.py`). This project models its decision procedure:

- `lambda_handler` reads the event's `body`, decodes it as JSON and looks at
  `type`. Type 1 (PING) gets PONG (`{"type": 1}`). Type 2 (APPLICATION_COMMAND)
  goes to the slash-command path. Any other type gets `{"message": "OK"}`.
  Every exception raised on the way becomes status 500 with `{"error": str(e)}`.
- `handle_slash_command` builds `"/" + data.name` and reads
  `member.user.username`. It asks the command table and always answers with a
  type-4 channel message. When the table has no match, the message is
  `Comando no reconocido`.
- `process_command` lower-cases the text and splits it on white space. Only
  the first word is matched, against `/help`, `/joke`, `/time`, `/ping` and
  `/stats`.
- The `/stats` branch reads the row with id `stats` from the DynamoDB table. A
  missing row counts as 0. The branch adds one, writes the row back and
  reports the new count. Any store exception is swallowed, and the reply is
  then a fixed placeholder.

Files, one module each:

- `wrappers.dfy` (`Wrappers`): Option and Result.
- `json.dfy` (`PyJson`): decoded JSON values as Python holds them. It models
  `dict.get`, including the AttributeError it raises on a non-dict. It models
  `==` against an integer literal (`True == 1` and `1.0 == 1` both hold). It
  models `str()` as an f-string uses it.
- `text.dfy` (`PyText`): `str.lower`, `str.split()` on Python's white-space
  set, and `str(int)` with its inverse.
- `counter.dfy` (`Counter`): the table as the class `CounterTable`. Its field
  `rows` maps a row id to the row's `commands` attribute. Its methods
  `GetItem`, `PutItem` and `RecordStats` update that field in place. The pure
  function `StatsCommand` states what one `/stats` command does.
- `commands.dfy` (`Commands`): the command table, `Lookup`, and
  `process_command`. The pure `ProcessCommandOutcome` is its specification.
  `ProcessCommand` is the method that runs against the table.
- `handler.dfy` (`Handler`): `Classify`, `SlashArguments`, `SlashReply` and
  the specifications `SlashCommandOutcome` and `HandlerOutcome`. The methods
  `HandleSlashCommand` and `LambdaHandler` are proved equal to them. The
  lemmas at the end state the handler's promises in terms of the incoming
  event.

Collaborators become inputs:

- `json.loads` is a parameter `loads: string -> Decoded`. A decode failure is
  `Invalid(message)`, and the handler raises it as JSONDecodeError.
- `random.choice` is a `JokeIndex` in `0..3`.
- `datetime.now().strftime(...)` is an opaque clock text.
- A store exception is a `StoreFault`: `NoFault`, `GetFails` or `PutFails`.
  These three inputs are grouped in `Env`.

Behaviours of the code worth noting:

- An empty or undecodable body gives status 500, not 400. `body` defaults to
  `''`, and `json.loads('')` raises inside the `try`.
- The counter update is a separate get and put, not an atomic increment.
- The reply to an unrecognised command is the fixed `Comando no reconocido`.
  It does not name the command.
- The `/time` reply shows local time but is labelled "UTC".

## Model

| member | source | states |
|---|---|---|
| PyJson.Get | src/lambda_function.py:58-61 | `v.get(key, default)` gives the stored value or the default exactly when `v` is a dict. Any other value raises AttributeError with Python's message "'<type>' object has no attribute 'get'". |
| PyJson.FieldOr | src/lambda_function.py:58-61 | `fields.get(key, default)` is the stored value when the key is present, and the default otherwise. |
| PyJson.PyEquals | src/lambda_function.py:33-38 | Only a bool, an int or a float can equal an integer literal. None, strings, lists and dicts never do. |
| PyJson.PyEqualsUnique | src/lambda_function.py:33-38 | A value equals at most one integer, so the PING and APPLICATION_COMMAND tests never both hold. |
| PyJson.PyEqualsOne | src/lambda_function.py:33 | `True == 1` and `1.0 == 1` hold. The string "1" and `False` are not 1. |
| PyJson.PyStr | src/lambda_function.py:63 | The f-string text of a JSON string is the string itself. Every other value renders as a non-empty text that starts with a sign, a digit or a bracket, or as None/True/False. |
| PyText.Lower | src/lambda_function.py:87 | Lower casing keeps the length and maps every character by `LowerChar`. No upper-case ASCII letter remains, and white space is kept. |
| PyText.Word | src/lambda_function.py:87 | The first word is the longest white-space-free prefix. It stops exactly at the first white space. |
| PyText.Split | src/lambda_function.py:87 | `split()` returns non-empty words without white space. It returns no word exactly when the text is all white space. |
| PyText.FirstWord | src/lambda_function.py:87-89 | When a text starts with a non-space character, `cmd[0]` exists and is that text's first word. |
| PyText.WordStopsAtSpace | src/lambda_function.py:87-89 | A word followed by white space is read as exactly that word, whatever comes after it. |
| PyText.IntToDecimal | src/lambda_function.py:119 | `str(n)` is non-empty. It starts with a minus sign exactly when `n` is negative, and all its other characters are digits. |
| PyText.IntRoundTrip | src/lambda_function.py:119 | The decimal text `str(n)` of any integer reads back as `n`. |
| Counter.Report | src/lambda_function.py:119 | The `/stats` reply starts with the fixed prefix "📊 Comandos procesados: ". After it comes a minus sign exactly when the count is negative, and decimal digits otherwise. |
| Counter.CountIn | src/lambda_function.py:116-117 | The counter reads as the row's value, or as 0 when there is no row. |
| Counter.ReportReadsBack | src/lambda_function.py:119 | The number in a `/stats` reply is exactly the count it was made from. |
| Counter.UnavailableReportsNothing | src/lambda_function.py:120-122 | The placeholder reply reports no count. |
| Counter.StatsCommand | src/lambda_function.py:113-122 | With a working store, the `stats` row becomes the previous count (0 if absent) plus one, and the reply reports that number. If either store call raises, the table is unchanged and the reply is the placeholder. No other row changes, and the count never decreases. |
| Counter.RunStatsCounts | src/lambda_function.py:113-119 | K sequential `/stats` commands that reach a working store raise the count by exactly K. They leave every other row as it was. |
| Counter.CounterTable.GetItem | src/lambda_function.py:115-116 | `get_item` raises exactly when the store fails. Otherwise it returns the row's counter, or None for a missing row. |
| Counter.CounterTable.PutItem | src/lambda_function.py:118 | `put_item` raises exactly when the store fails. Otherwise it replaces the row, and only that row. |
| Counter.CounterTable.RecordStats | src/lambda_function.py:113-122 | The in-place read-increment-write gives the reply and the new table that `StatsCommand` specifies. |
| Commands.CommandFor | src/lambda_function.py:89-113 | A first word selects a command only when it is that command's keyword. |
| Commands.KeywordSelects | src/lambda_function.py:89-113 | Each keyword selects its own command, so no branch of the chain is shadowed. |
| Commands.Lookup | src/lambda_function.py:87-89 | `cmd[0]` raises IndexError("list index out of range") exactly when the command text is all white space. |
| Commands.TimeReply | src/lambda_function.py:107-108 | The `/time` reply is a non-empty text that starts with ⏰. |
| Commands.ProcessCommandOutcome | src/lambda_function.py:86-124 | Returns None exactly for an unrecognised first word, and any text it returns is non-empty. `/help` and `/ping` answer their fixed texts, `/time` answers the clock reply, and `/joke` answers the chosen one of the four jokes. Only `/stats` changes the table, and it does so as `StatsCommand` says. Errors happen only for all-white-space text. |
| Commands.ProcessCommand | src/lambda_function.py:86-124 | Running against the table gives the answer and the new table that `ProcessCommandOutcome` specifies. |
| Commands.UsernameIgnored | src/lambda_function.py:86-124 | The user name never changes the answer or the table. |
| Commands.SlashLookup | src/lambda_function.py:86-89 | For `"/" + name`, `cmd[0]` never fails. The command is chosen by "/" followed by the name's lower-cased first word. |
| Commands.SlashSelects | src/lambda_function.py:86-113 | A recognised command is chosen if and only if the name's lower-cased first word is its keyword. |
| Commands.CaseInsensitive | src/lambda_function.py:87-89 | A name and its lower-cased form select the same command. |
| Commands.TrailingWordsIgnored | src/lambda_function.py:87-89 | Words after the first never change the command. |
| Commands.NonStringNameUnrecognized | src/lambda_function.py:59-63 | A `data.name` that is not a JSON string never selects a command. |
| Handler.ErrorResponse | src/lambda_function.py:46-51 | An exception becomes status 500 with the exception's text as `error`. |
| Handler.BodyOf | src/lambda_function.py:21 | `event.get('body', '')` is the event's `body` when present, and `''` otherwise. |
| Handler.Classify | src/lambda_function.py:17-44 | A non-dict event raises. PONG, command dispatch and OK happen only for a dict event whose body string decodes to a dict. Command dispatch receives that decoded payload. |
| Handler.SlashArguments | src/lambda_function.py:58-63 | Reading succeeds exactly when the payload, its `data` (default `{}`), its `member` (default `{}`) and `member.user` (default `{}`) are all dicts. Otherwise it raises AttributeError. On success the command is "/" followed by `str(data.name)` (default `''`), and the user name is `user.username` (default 'Usuario'). |
| Handler.SlashReply | src/lambda_function.py:65-84 | Always status 200 with a non-empty type-4 message: the answer when it is non-empty, the fallback text for None. |
| Handler.SlashCommandOutcome | src/lambda_function.py:57-84 | Either a 200 type-4 reply, or an exception that escapes before the table is touched. The table changes at most as `StatsCommand` says. |
| Handler.HandleSlashCommand | src/lambda_function.py:57-84 | Running against the table gives the result and the new table that `SlashCommandOutcome` specifies. |
| Handler.HandlerOutcome | src/lambda_function.py:17-51 | The status is 200 or 500, and it is 500 exactly when the body is an error report. A 500 leaves the table unchanged. Every channel message is non-empty. The table changes at most as one `/stats` command changes it. |
| Handler.LambdaHandler | src/lambda_function.py:17-51 | Running against the table gives the response and the new table that `HandlerOutcome` specifies. No exception escapes. |
| Handler.HandshakeGetsPong | src/lambda_function.py:31-37 | A payload whose `type` equals 1 gets 200 `{"type": 1}` and leaves the table unchanged. |
| Handler.OtherTypesAcknowledged | src/lambda_function.py:31-44 | A payload whose `type` is missing, or equals neither 1 nor 2, gets 200 `{"message": "OK"}` and leaves the table unchanged. |
| Handler.CommandAlwaysAnswered | src/lambda_function.py:38-84 | A well-formed type-2 payload always gets 200 with a non-empty type-4 message. For an unrecognised name that message is the fallback text; otherwise it is the command's answer. |
| Handler.DiscordShapeAccepted | src/lambda_function.py:58-61 | A guild payload with a string `data.name` and a dict `member.user` is accepted, whatever other keys `member` holds. Its command is "/" followed by the name, and the username defaults to 'Usuario'. |
| Handler.DirectMessageAccepted | src/lambda_function.py:58-63 | A payload with no `member` (a direct message) is accepted. Its command is "/" followed by the name, and the user name is 'Usuario'. |
| Handler.RaisedIs500 | src/lambda_function.py:46-51 | Any exception raised while classifying gives status 500 with its text and leaves the table unchanged. |
| Handler.SlashFailureIs500 | src/lambda_function.py:38-51 | A type-2 payload whose `data`, `member` or `member.user` is present but not a dict raises inside `handle_slash_command`, and the handler answers 500 with that exception's text, leaving the table unchanged. |
| Handler.NullUserIs500 | src/lambda_function.py:59-60 | A `member.user` of `null` gives status 500 with "'NoneType' object has no attribute 'get'". |
| Handler.NullUserRaises | src/lambda_function.py:59-60 | With `member.user` set to `null`, `user.get('username', ...)` raises AttributeError "'NoneType' object has no attribute 'get'". |
| Handler.EmptyBodyIs500 | src/lambda_function.py:21-28 | A missing or empty body goes to `json.loads('')`, which fails, so the response is 500, not 400. |
| Handler.NullBodyIs500 | src/lambda_function.py:21-28 | A `null` body makes `json.loads` raise TypeError, so the response is 500 with Python's message. |
| Handler.ClassifiedAsCommand | src/lambda_function.py:31-39 | A payload whose `type` equals 2 is sent to the slash-command path with that payload. |
| Handler.StatsSelected | src/lambda_function.py:87-113 | A name whose lower-cased first word is "stats" selects the `/stats` branch. |
| Handler.StatsCommandEffect | src/lambda_function.py:113-122 | This applies to any name whose first word is "stats" in any letter case. With a working store, `/stats` raises the count by one and its 200 reply reports the new count. With a failing store, the reply is the placeholder and the table is unchanged. |
| Handler.OnlyStatsWrites | src/lambda_function.py:113-119 | If the table changed, the event was a `/stats` command that reached a working store. |

## Left out

- The module-level boto3 client, table and environment configuration (lines 9-15). The table is passed in as a `CounterTable`.
- `verify_discord_signature` (lines 53-55) always returns True. Its only consequence is a `print` (lines 24-25), so it has no effect on the behaviour.
- `print` logging, the unused `context` argument, and the unused imports `requests`, `hashlib` and `hmac`.
- `json.loads` is a parameter. `json.dumps` is not modelled: response bodies are the `Body` datatype.
- `random.choice` is an index chosen by the caller. Its uniform distribution is not modelled.
- `datetime.now().strftime(...)` is opaque clock text. Field formatting and the time zone are not modelled.
- PyText.Lower: only 'A'..'Z' and KELVIN SIGN (U+212A) are mapped. These are the only characters whose lower case is ASCII. Other case mappings, including the two-character result for U+0130, are left out because they cannot make a word equal a command keyword.
- PyJson.PyStr: floats render exactly only when integral and below 10^16. Lists and dicts render as their bracket pair only. No such text can name a command.
- Non-finite floats (`NaN`, `Infinity`) from `json.loads` are left out. They compare unequal to 1 and 2, like `JFloat(0.5)`. Also left out: `RecursionError` on deeply nested JSON.
- Attributes of the `stats` row other than `commands` are left out. A row without `commands` is modelled as a missing row; both read as 0.
- Non-integer `commands` values are left out. A fractional Decimal would print with its fraction. A non-numeric value would raise inside the `try` and give the placeholder, just like a `StoreFault`.
- Concurrent `/stats` requests can lose updates, because get and put are separate calls. The model is sequential, so `RunStatsCounts` holds only for commands run one after another.
- Counter.StatsCommand: a store call that raises is modelled as writing nothing. boto3 can raise after DynamoDB has applied a `put_item` (a read timeout or a retried request). In that case the real row has changed even though the reply is the placeholder. The same assumption underlies Handler.OnlyStatsWrites and Handler.StatsCommandEffect.
- Counter.RunStatsCounts: counts are unbounded integers. boto3 returns `commands` as a `decimal.Decimal`, and the `+ 1` runs in Python's default 28-digit decimal context. From 10^28 upward the sum rounds, the count stops rising by one, and the reply prints exponent notation. Counting up from 0 never gets there, but a row seeded that high would.
- Counter.ReportReadsBack: the same 28-digit limit applies. For a count of 10^28 or more, the reply's number is printed in exponent notation and does not read back as an integer.
- Counter.StatsCommand: the same 28-digit limit applies. Its promise that the row becomes the old count plus one, reported in the reply, is exact only below 10^28.
- Counter.Report: the same 28-digit limit applies. Its promise of plain decimal digits after the prefix holds only for counts below 10^28; Python prints larger Decimal counts in exponent notation.
