# Homework status bot: the poll, evaluate and notify loop, in Dafny

This project models the core of a Telegram bot (`homework.py`). The bot
polls the Practicum homework-status API and reports status changes to a
chat. The model covers these parts:

- **Startup check** (`Tokens.CheckTokens`): the three credentials
  PRACTICUM_TOKEN, TELEGRAM_TOKEN and TELEGRAM_CHAT_ID are tested in that
  order. The check fails on the first one that is unset or empty.
- **Error taxonomy** (`Errors.BotError`): one constructor per kind of
  exception `homework.py` raises. `Errors.Message` gives the text that
  `str(error)` produces for each. This text is what the loop compares and
  sends. An exception built with two arguments prints as the repr of a
  tuple, and the model builds that text too.
- **Request classification** (`Api.GetApiAnswer`): works over an abstract
  transport outcome. A non-200 answer gives HTTPError. A connection failure
  gives ConnectionError. Any other request failure gives the generic Error.
  A body that is not JSON gives an exception that is not wrapped.
- **Response check** (`Api.ValidateResponse`, `Api.ResponseWatermark`,
  `Watcher.PollLoop.CheckResponse`): returns `homeworks[0]`. It writes the
  watermark (REQUEST_TIME) before it checks anything else.
- **Status interpretation** (`Api.ParseStatus`): looks the status up in the
  three-entry verdict table (HOMEWORK_VERDICTS) and builds the Russian
  sentence.
- **The loop** (`Watcher.Iterate`, `Watcher.Run`, and the class
  `Watcher.PollLoop` with `Step` and `Loop`): the state is the watermark and
  `last_message`. Each iteration gets a transport outcome and a
  send-succeeds oracle.
- **`main`** (`Watcher.Serve`): the loop is entered only if the startup
  check passes.

The decoded payload is `Payload.Json`: None, bool, int, str, list or dict.
A dict keeps its items in insertion order. `PyText` holds Python's `str`
and `repr` conventions, which the f-strings and exception texts use.

## Behaviour worth noting

The model keeps each of these behaviours of homework.py as written.

- The watermark becomes the answer's `current_date` whenever the answer is
  a dict holding that key (homework.py:141). This happens even when the
  later checks fail, for example on an empty homeworks list. The watermark
  is not held back until a poll fully succeeds. It can be any JSON value.
- De-duplication applies only on the error path (homework.py:223-228). A
  status message is sent on every iteration (homework.py:219).
  `last_message` is never set on the success path.
- A failed send on the success path is logged (homework.py:221-222). A
  failed send inside the error handler (homework.py:227) is not caught, so
  it ends `main`. In that case `last_message` is not updated.
- The first watermark is the clock reading at import (homework.py:31). Here
  it is a parameter.
- `homework.py` imports `CheckTokenException`, `HTTPErrorException`,
  `KeyErrorException` and others from `exceptions.py` (homework.py:11-20).
  `exceptions.py` defines different names (`HTTPFailError`,
  `KeyMissingError`, …), so the module as written fails at import. The
  taxonomy here follows the names `homework.py` raises.

## Model

| member | source | states |
|---|---|---|
| `Tokens.CheckTokens` | homework.py:48-71 | Passes iff all three credentials are set and non-empty. Otherwise it fails with CheckToken naming the first missing one, in the order PRACTICUM_TOKEN, TELEGRAM_TOKEN, TELEGRAM_CHAT_ID. |
| `Watcher.Serve` | homework.py:201-213 | Startup fails iff a credential is missing, always with a CheckToken error. Then no message is sent and no iteration runs. Otherwise the loop runs from an empty last message, exactly as `Run` says. |
| `Errors.Message` | homework.py:211-227 | Every error's text except that of an unwrapped exception is non-empty. So the first error always differs from the initial empty `last_message` and is sent. |
| `Errors.KeyErrorMessageInjective` | homework.py:146-149 | Two missing-key errors from the same handler have the same text only when they name the same key. |
| `Errors.HttpErrorMessageDistinguishesWatermark` | homework.py:99-118 | Two HTTP failures with the same token print alike only when their integer `from_date` watermarks are equal. So de-duplication never merges failures at different watermarks. |
| `Api.GetApiAnswer` | homework.py:108-126 | Gives a payload iff the server answered 200 with a decodable body, and then gives that body. A non-200 answer gives HTTPError carrying the token and the request's `from_date`. A connection failure gives ConnectionError. Any other request failure gives the generic Error with that failure's text. An undecodable 200 body gives the decoding exception unwrapped. |
| `Api.ValidateResponse` | homework.py:140-161 | Returns `homeworks[0]` exactly when the answer is a dict with `current_date` and a non-empty `homeworks` list. Every failure is a KeyError, the structure TypeError, or IndexError. |
| `Api.ValidateResponseErrors` | homework.py:141-157 | A non-dict answer gives TypeError. A missing `current_date` gives KeyError naming it, checked before `homeworks`. A missing `homeworks` gives KeyError naming it. A non-list `homeworks` gives TypeError. An empty list gives IndexError. |
| `Api.ResponseWatermarkRule` | homework.py:136-144 | If the answer is a dict with `current_date`, the watermark becomes that value, whatever validation finds later. Otherwise the watermark is unchanged and validation fails. |
| `Api.ParseStatus` | homework.py:176-194 | Every failure is a KeyError, a StatusError or the generic Error. |
| `Api.ParseStatusSucceeds` | homework.py:176-198 | Succeeds iff the homework is a dict with `homework_name` and with a string `status` that is a key of the verdict table. The result is then `Изменился статус проверки работы "{name}". {verdict}` with that status's verdict. |
| `Api.ParseStatusErrors` | homework.py:177-192 | A missing `status` gives KeyError for `status`, before `homework_name` is looked at. A missing `homework_name` gives KeyError for it. A hashable status outside the table gives StatusError carrying that status. |
| `Api.ParseStatusApproved` | homework.py:33-37 | For status `approved` and name `X`, the text is exactly the approved sentence. |
| `Api.ParseStatusPending` | homework.py:179-188 | Status `pending` gives StatusError carrying `pending`. |
| `Api.StatusMessageDeterminesVerdict` | homework.py:33-37 | For the same work, two table statuses give the same sentence only if they are the same status. |
| `Watcher.IterateWatermark` | homework.py:214-217 | After an iteration the watermark is the answer's `current_date` when the request returned a dict holding it. Otherwise it is unchanged, including when the request failed. |
| `Watcher.HttpFailureUsesWatermark` | homework.py:99-118 | A non-200 answer gives an HTTPError that carries the current watermark as the request's `from_date`. |
| `Watcher.IterateSuccessPath` | homework.py:217-222 | On success the status text is sent with no comparison. The loop continues even if the send fails. `last_message` is unchanged. |
| `Watcher.IterateErrorPath` | homework.py:223-228 | On an error, its text is sent iff it differs from `last_message`. If the loop continues, `last_message` becomes that text. |
| `Watcher.IterateCrash` | homework.py:219-228 | An iteration ends `main` iff it is on the error path, the text is new, and the send fails. |
| `Watcher.ConsecutiveErrorsSentOnce` | homework.py:223-228 | Two consecutive iterations that fail with the same text send it at most once between them. The second sends nothing and does not crash. |
| `Watcher.EvaluateSettles` | homework.py:213-217 | Polling again with the same transport outcome, from the watermark the first poll left, gives the same evaluation. |
| `Watcher.EmptyHomeworksAdvancesWatermark` | homework.py:141-155 | An answer with an empty homeworks list is the IndexError "no new statuses" case. It still moves the watermark to its `current_date`, and it is not sent again when it is already the last message. |
| `Watcher.RejectedStatusIsSent` | homework.py:213-219 | A `rejected` status for `HW1` moves the watermark to the answer's date and sends the rejected sentence. `last_message` is unchanged. |
| `Watcher.PersistentErrorSentAtMostOnce` | homework.py:213-231 | Over any run where every poll meets the same failing outcome, at most one message is sent. A crash can happen only on the first iteration. Nothing is sent and there is no crash when that text is already the last message. The watermark ends where the first poll left it. |
| `Watcher.PersistentStatusSentEveryTime` | homework.py:213-222 | Over any run where every poll yields the same status text, that text is sent once per iteration. There is no crash, and `last_message` never changes. |
| `Watcher.PollLoop.constructor` | homework.py:210-211 | The loop starts with the given watermark and an empty `last_message`. |
| `Watcher.PollLoop.CheckResponse` | homework.py:129-161 | Sets the watermark as `ResponseWatermark` says and returns `ValidateResponse`'s result. |
| `Watcher.PollLoop.Step` | homework.py:214-228 | The new watermark, `last_message`, sent texts and outcome are those of `Iterate` on the old state. |
| `Watcher.PollLoop.Loop` | homework.py:213-231 | The final state, sent texts, crash flag and iteration count are those of `Run` on the starting state. |

## Left out

- The HTTP request itself (`requests.get`, headers, endpoint) and `response.json()` are network I/O. Each poll's outcome is an input: a status code with a decoded or undecodable body, a connection failure, or another request failure.
- `telegram.Bot` and `bot.send_message` are a foreign client. Whether a send succeeds is an input. The text of the SendMessage exception is modelled but never sent, because the loop only logs it or lets it escape.
- `time.sleep(RETRY_PERIOD)` affects timing only. `time.time()` for the first watermark is a parameter. The endless `while True` is run over a finite list of inputs.
- Logging, `load_dotenv` and `os.getenv` are environment plumbing. The three credentials are inputs, with None for an unset variable.
- JSON floats are not modelled: a payload holds None, bool, int, str, lists and dicts.
- Python's `repr` of a str escapes backslash, the chosen quote, newline, carriage return and tab. Other non-printable characters, which Python writes as `\x..` escapes, are not modelled.
- The texts of the TypeErrors raised when a homework is not a dict are CPython 3.11's wording. Earlier versions word the str case differently.
- The line `if all(tokens.keys())` in check_tokens is always true and only logs. It is not modelled.
