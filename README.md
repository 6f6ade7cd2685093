# homework_bot in Dafny

A model of the Practicum homework-status bot (`homework.py`). The bot polls the
Practicum homework API every ten minutes. It checks each answer, turns the first
homework record of the answer into a Russian status notice and sends it to a Telegram chat. When a
cycle raises, it sends a report of the exception instead.

The model has three modules:

- `Results` (`results.dfy`): `Option`, and `Result` for a return value or a raised exception.
- `PyJson` (`pyjson.dfy`): what `response.json()` yields, as Python objects: `None`,
  booleans, ints, strings, lists and dicts. A dict keeps its items in order. The module
  also gives the built-ins the bot applies to those values: truthiness, `d.get(k)` /
  `k in d`, `in` on a string, and `str()`.
- `Homework` (`homework.dfy`): the rest of `homework.py`:
  - `check_tokens` is `CheckTokens`.
  - `get_api_answer` is `FromDate` (the `from_date` it sends) and `ApiAnswer` (how it
    ends, given how the request ended).
  - `check_response` is `CheckResponse`.
  - `HOMEWORK_STATUSES` is `HomeworkStatuses`.
  - `parse_status` is `ParseStatus`. The f-string it returns is `StatusMessage`.
  - `main` is `Poll`. It is proved against `History`, the specification of its first n
    iterations. `Step` is one iteration. `Cycle` is the body of the `try` block.

`Error` has one constructor for each exception a cycle can raise. That covers the
`raise` statements in the code and also the exceptions Python itself raises on the way:

- `TypeError` when the answer is not a dict.
- `IndexError` on an empty `homeworks` list.
- `TypeError` when `in` or subscripting meets a value of the wrong type.
- `TypeError` when the status is a list or a dict, which cannot be looked up in a dict.

`parse_status` is modelled on every value `check_response` can hand it, not only on
dicts. On a list, `in` tests membership. On a string, it tests for a substring. On
`None`, a bool or an int, it raises. Every non-dict value makes it raise.

Two consequences of the code are worth stating:

- An empty `homeworks` list is not skipped. Line 88 indexes `[0]` with no guard, so the
  cycle raises `IndexError`, which is reported like any other failure (`CheckAnswer`,
  `CycleOnAnswer`).
- The loop keeps no record of what it sent, so a repeated record is notified again
  (`NoDeduplication`, `RepeatedAnswerRepeatsNotice`).

## Model

| member | source | states |
|---|---|---|
| `Homework.CheckTokens` | homework.py:110-119 | true exactly when none of the three tokens is None; an empty value counts as present |
| `PyJson.Truthy` | homework.py:57 | a value is false for `or` exactly when it is None, False, 0, the empty string, the empty list or the empty dict |
| `Homework.FromDate` | homework.py:57-58 | `from_date` is the cursor when it is truthy, and the clock reading otherwise, so both None and 0 fall back to the clock |
| `Homework.ApiAnswer` | homework.py:59-73 | a failed request raises; any status code other than 200 raises NegativeApiStatus whatever the body; the call succeeds exactly on a 200 whose body decodes, and returns that body |
| `Homework.NonOkReplyFails` | homework.py:69-72 | a non-200 reply fails the whole cycle with NegativeApiStatus, for every body |
| `PyJson.Lookup` | homework.py:79-83 | a dict lookup finds a value exactly when some item has that key, and the value found is bound to that key |
| `Homework.CheckResponse` | homework.py:76-89 | a non-dict answer raises TypeError; a missing `homeworks` key raises KeyError; a non-list value raises HomeWorkIsNotList; an empty list raises IndexError; it succeeds exactly on a non-empty list and returns its element 0 |
| `Homework.CheckAnswer` | homework.py:84-89 | on an answer built from a homework list, it returns the first homework unchanged, or raises IndexError when the list is empty |
| `Homework.Member` | homework.py:94-98 | `key in homework` raises TypeError exactly on None, a bool or an int; on a dict it tests whether some item has the key, on a list whether some element is that string |
| `Homework.StatusMessage` | homework.py:106-107 | the message is the fixed prefix ending in a quote, then the name unchanged, then `". ` and the status's verdict at its end |
| `Homework.ParseStatus` | homework.py:92-107 | the name is checked before the status, so a record missing both raises the name error; a record with a name and no status raises HomewokrStatusError; it succeeds exactly when the status is one of the three keys, and the message is the fixed prefix, the name, `". ` and that status's verdict; every non-dict raises |
| `Homework.UnknownStatusRaises` | homework.py:103-105 | a present status outside the three keys raises, naming the status, or raises TypeError when it is a list or dict |
| `Homework.ParseRecord` | homework.py:92-107 | for a record of two strings, the message carries the name unchanged and the verdict of the status; any other status raises UnknownStatus |
| `Homework.VerdictsDistinct` | homework.py:25-29 | the three verdicts are pairwise distinct |
| `Homework.MessageEnding` | homework.py:25-29 | a message ends with the last two characters of its verdict, which differ for the three statuses |
| `Homework.StatusMessageInjective` | homework.py:106-107 | two messages are equal exactly when they have the same name and the same status, so the message always changes when the status does |
| `Homework.Cycle` | homework.py:130-132 | the first of get_api_answer, check_response and parse_status that raises decides the error; when none raises, the result is the answer's items and parse_status's message for the answer's first homework |
| `Homework.CycleOnAnswer` | homework.py:129-132 | a 200 answer with an empty list fails the cycle with IndexError; one whose first record has a known status yields that record's message |
| `Homework.CurrentDate` | homework.py:135 | the new cursor is the answer's `current_date`, or None when the answer does not carry it |
| `Homework.Step` | homework.py:129-140 | one iteration requests `FromDate` of the cursor; when the cycle raises it sends the report of that error and keeps the cursor, otherwise it sends the notice and moves the cursor to `current_date` |
| `Homework.History` | homework.py:128-140 | n iterations of the loop make exactly n requests and send exactly n messages |
| `Homework.HistoryAt` | homework.py:128-140 | iteration i requests from the cursor that the first i iterations left, sends that step's message and leaves that step's cursor |
| `Homework.OneMessagePerIteration` | homework.py:129-140 | an iteration that raises sends one report of that exception and keeps the cursor; one that succeeds sends its notice |
| `Homework.NoDeduplication` | homework.py:132-135 | two successive iterations that get the same answer, when it yields a notice, both send that same notice |
| `Homework.RepeatedAnswerRepeatsNotice` | homework.py:132-135 | the same well-formed answer twice in a row sends its first record's notice twice |
| `Homework.CursorFallsBackToClock` | homework.py:130-135 | after a successful iteration whose answer has no `current_date`, the cursor is None and the next request uses the clock |
| `Homework.Poll` | homework.py:122-140 | with a missing token it stops before polling, and only then; otherwise its requests, messages and final cursor are those of `History` started from the start-up clock reading |

## Left out

- The HTTP request (`requests.get` with the OAuth header and `ENDPOINT`) and `.json()` are foreign calls. Each iteration receives their outcome as a value: the request failed, or a status code with a body that decodes or does not.
- The clock (`time.time()`) is a parameter: one reading at start-up, and one for each iteration.
- Telegram (`telegram.Bot`, `send_message`) is a foreign library. The bot's constructor at line 126 is taken to succeed, although the library can reject a malformed token there, including an empty one that `check_tokens` accepts. A message is returned instead of sent, and every send is taken to return. In the code, a notice send (line 134) that raises anything but `exceptions.TrySendMessageError` skips the cursor update and leads to an alarm send; an alarm send (line 139) that raises is not caught and ends `main`. The model does not cover either.
- The text of the failure report (`f'Сбой в работе программы: {error}'`) depends on Python's `str()` of each exception. `Alarm` carries the `Error` value instead. The messages passed to each `raise` are not modelled either.
- Logging, `print`, `load_dotenv` and `os.getenv` are I/O. The three tokens are `Option<string>` inputs to `CheckTokens`.
- `time.sleep(RETRY_TIME)` is timing and has no effect on the values.
- Poll: covers the first finitely many iterations of the `while True` loop. The loop itself never ends.
- JSON numbers with a fraction are not in `Json`. In `PyJson.Repr`, strings inside lists and dicts are quoted without Python's escaping. This matters only for a homework name that is not a string.
- Duplicate keys in the JSON text are a matter of decoding. A decoded dict has distinct keys.
