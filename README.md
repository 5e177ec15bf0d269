# homework_bot in Dafny

A model of the Telegram bot that polls the Practicum homework-status API and forwards each
new review verdict to a chat. Everything the bot decides lives in `homework.py`:

- the verdict table `HOMEWORK_VERDICTS`,
- the startup check `check_tokens`,
- the status-code check of `get_api_answer`,
- the shape check `check_response`,
- the record reader `parse_status`,
- the body of the `while True` loop in `main`, which keeps the cursor `timestamp` and the marker `last_error`.

Files:

- `wrappers.dfy` (module `Wrappers`): `Option` and `Result`.
- `json.dfy` (module `Json`): decoded JSON values. It also gives the Python type names used in
  error texts, `str()` of a value, and the decimal text of an int with its inverse.
- `homework.dfy` (module `Homework`): the pure functions. Each exception the bot can meet is a
  `Failure` value, and `Text` gives the exception's `str()`.
- `bot.dfy` (module `Bot`): the loop. `PollLoop` is a class with the fields `timestamp` and
  `lastError`. Its method `Step` runs one pass of the loop body on an abstract request outcome and
  returns the messages sent in that pass. `Cycle` is the specification of one pass, and `Run` is
  the specification of consecutive passes. `Start` is `main`: the token check, then the loop.

Behaviour that the code has as written, and that the model keeps. In several places the code
works against its own evident intent: because of the reset at line 120, the comparison at
homework.py:123 can suppress only a failure whose text is empty, and the exception classes
declared in exceptions.py are never used.

- There is no deduplication of failures. `last_error` is reset to `''` inside the `except`
  block (homework.py:120), just before the comparison at line 123. So every failure whose text
  is not empty is sent, every time it occurs (`RepeatedFailureAnnouncedEachTime`). What is sent
  never depends on the marker (`RunIgnoresLastError`).
- The cursor is overwritten with `response.get('current_date')` before the response is
  validated (line 112). An answer without `current_date` sets the cursor to None, even when
  the answer is later rejected.
- `.get` runs at line 112 before `check_response`. So a decoded answer that is not a dict fails
  with an AttributeError (`'list' object has no attribute 'get'`). The non-dict branch of
  `check_response` is never reached from the loop, and the cursor stays.
- A request that raises (line 71) is reported straight to the chat by `logger_error`. Then
  `response` is read unbound at line 73. The cycle therefore sends two messages: the request
  alert, then the diagnostic of the UnboundLocalError. Its wording is taken from Python 3.11
  and later.
- A missing `homework_name` raises a KeyError. Its `str()` is the repr of its argument, so the
  diagnostic shows that text in single quotes.
- `parse_status` uses Python's `in`. On a list record this tests membership, on a str record it
  tests for a substring, and on None, bool or int it raises a TypeError. A list or str record
  that passes both key tests then fails on `.get`. A list or dict status raises "unhashable
  type" at the table lookup.
- The exception classes of `exceptions.py` are never raised. The bot raises `TypeError`,
  `KeyError` and plain `Exception`.

## Model

| member | source | states |
|---|---|---|
| `Homework.KeepSet` | homework.py:45 | `filter(None, tokens)` keeps every truthy token as often as it occurs and drops every other one, so it never returns more than it was given |
| `Homework.KeepSetKeepsAll` | homework.py:44-46 | the filter keeps as many tokens as it was given exactly when every token is truthy |
| `Homework.CheckTokens` | homework.py:42-51 | the check passes iff all three configuration values are set and non-empty; any None or empty value fails it |
| `Homework.GetApiAnswer` | homework.py:63-76 | a value comes back only for status 200 with a decodable body, and it is the body unchanged; any other status fails with the endpoint error; only a raising request sends an alert of its own |
| `Homework.CheckResponse` | homework.py:79-86 | succeeds iff the answer is a dict whose `homeworks` is a list, and then returns that list unchanged, possibly empty; every failure is the TypeError |
| `Homework.CheckResponseReadsOnlyHomeworks` | homework.py:83-86 | two dicts with the same `homeworks` entry get the same verdict from the check |
| `Homework.Text` | homework.py:73-98 | the text each failure shows in the diagnostic: the literal messages raised at lines 74, 82/85, 92 (in quotes, as a KeyError shows its argument), 94 and 98, and Python's own texts for AttributeError (line 112), the not-iterable and unhashable TypeErrors and UnboundLocalError; every failure the bot raises itself has a non-empty text, and any other failure shows its own text |
| `Homework.Contains` | homework.py:91-94 | Python's `in` raises exactly for None, bool and int; it is a key test on a dict, an element test on a list and a substring test on a str |
| `Homework.Verdict` | homework.py:97-99 | the lookup succeeds iff the status is a str among the three codes, and yields that code's verdict; an unknown str is reported as itself, None, a bool or an int by its `str()`, and a list or dict fails as unhashable |
| `Homework.IntStatusTextsDiffer` | homework.py:97-98 | two int statuses that fail the lookup with the same error are the same int |
| `Homework.ParseStatus` | homework.py:89-100 | a message comes back iff the record is a dict with both keys and a known code; the message is the notice for the shown name and the verdict; a missing `homework_name` is reported before a missing `status`; an unknown str status reports that status; a None, bool or int status reports its `str()` as an unexpected status, and a list or dict status fails as unhashable |
| `Homework.ParseStatusReadsOnlyNameAndStatus` | homework.py:95-100 | the result for a dict depends only on its `homework_name` and `status` entries |
| `Homework.VerdictEndingsDiffer` | homework.py:22-26 | no two verdicts of the table end in the same two characters |
| `Homework.NoticeNamesOneCode` | homework.py:97-100 | equal notices for known codes end in the same verdict, so they carry the same code |
| `Homework.NoticeNamesOneWork` | homework.py:100 | equal notices with the same verdict name the same work |
| `Homework.NoticeInjective` | homework.py:99-100 | equal notices for known codes come from the same code and the same name |
| `Homework.NoticeDeterminesStatus` | homework.py:89-100 | two records parsed to the same message have the same status and names that show the same |
| `Json.NatTextRoundTrip` | homework.py:98 | the decimal text of a natural number reads back as that number |
| `Json.IntTextRoundTrip` | homework.py:98 | the text `str()` gives an int status reads back as that int, so distinct int statuses give distinct error texts |
| `Bot.PollLoop.constructor` | homework.py:103-106 | before the first cycle the cursor is the current time and the marker is unassigned |
| `Bot.PollLoop.Step` | homework.py:110-125 | one pass of the loop body leaves the cursor and marker as `Cycle` says and returns exactly the messages `Cycle` sends |
| `Bot.PollLoop.Poll` | homework.py:109-126 | passes over consecutive request outcomes leave the loop as `Run` says and send the concatenation of what each pass sends |
| `Bot.Start` | homework.py:103-109 | the process exits before the loop, sending nothing, iff some configuration value is missing or empty; otherwise it sends what the loop from the current time sends |
| `Bot.CycleAnnouncesFirstRecord` | homework.py:111-116 | a valid non-empty batch sends exactly the message parsed from its first record, keeps the marker and moves the cursor to `current_date` |
| `Bot.CycleIgnoresLaterRecords` | homework.py:114-115 | batches with the same first record give the same cycle whatever follows it |
| `Bot.CycleEmptyBatch` | homework.py:112-118 | an empty batch sends nothing, keeps the marker and moves the cursor, to None when `current_date` is absent |
| `Bot.CycleFailureAlwaysNotified` | homework.py:119-125 | a failed cycle sets the marker to the failure's text and sends its diagnostic whenever that text is not empty, whatever the marker held |
| `Bot.CycleIgnoresLastError` | homework.py:119-125 | what a cycle sends and where its cursor ends up do not depend on the marker |
| `Bot.CycleEndpointDown` | homework.py:73-74 | a status other than 200 sends the one diagnostic naming the endpoint, and the cursor stays |
| `Bot.CycleRequestRaised` | homework.py:65-73 | a raising request sends its alert and then the UnboundLocalError diagnostic, and the cursor stays |
| `Bot.CycleAnswerNotADict` | homework.py:111-113 | an answer that is not a dict fails on `.get` with an AttributeError before `check_response`, and the cursor stays |
| `Bot.CycleBadHomeworksMovesCursor` | homework.py:112-113 | a dict without a list under `homeworks` fails with the TypeError after the cursor has moved to `current_date` |
| `Bot.RunIgnoresLastError` | homework.py:109-126 | over any number of cycles, the messages and the final cursor do not depend on the starting marker |
| `Bot.RepeatedFailureAnnouncedEachTime` | homework.py:119-125 | n identical failing answers send n identical diagnostics: nothing is deduplicated |
| `Bot.ApprovedRecordScenario` | homework.py:111-116 | one approved record `hw1` with a `current_date` sends its notice with the approval verdict and moves the cursor to that date |
| `Bot.MissingNameScenario` | homework.py:91-92 | a record without `homework_name` sends the KeyError diagnostic with the quoted text and leaves the cursor None |

## Left out

- HTTP: `requests.get` and `response.json()` (homework.py:66-70, 76) are not modelled. A request is an abstract outcome: either it raised with a given text, or an answer came with a status code and a body that was decoded or failed to decode.
- Telegram delivery (`telegram.Bot`, `send_message`, `logger_error`, homework.py:37-40, 53-60) is not modelled: sending a message appends it to the list a cycle returns. A delivery that fails, and the second send that `logger_error` then attempts, are not modelled: every send succeeds.
- Logging setup, the `print` and all `logging` calls are not modelled; they only write to the log.
- Environment loading, `time.time()`, `time.sleep(RETRY_PERIOD)` and `sys.exit()` (homework.py:11-17, 106-108, 126) are not modelled as such. The three configuration values and the start time are parameters, and the exit is the `exited` result of `Start`.
- `Bot.PollLoop.Poll`: the `while True` loop never ends. The model runs it over a finite sequence of request outcomes, one cycle per outcome.
- `Json.Format`: `str()` of a list or dict, which is its Python repr, is shown by a fixed placeholder. This only matters for a `homework_name` that is a list or a dict.
- JSON numbers are integers only; floats are not modelled.
- exceptions.py is not part of this model: it declares four exception classes without behaviour, and none of them is raised.
- Calling `check_response` twice on the same answer gives the same list. This holds because `Homework.CheckResponse` is a function, so no separate lemma states it.
- `Homework.Text`: the texts Python itself writes (AttributeError, the not-iterable and unhashable TypeErrors, UnboundLocalError) follow Python 3.11 and later; older versions word the UnboundLocalError differently.
- `Bot.Start`: `main` builds `telegram.Bot(token=TELEGRAM_TOKEN)` (homework.py:105) before `check_tokens` runs. With a missing or empty Telegram token the library can raise there and end the process before the check. The model does not distinguish that ending from the check's own exit: both are `exited` with nothing sent.
