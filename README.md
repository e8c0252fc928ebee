# homework_bot: a Dafny model of the polling core

The bot polls a homework-review API for the review status of the user's
submissions and forwards a notification to one Telegram chat whenever the
list of submissions changes; failures are reported to the same chat, but a
failure whose exception arguments equal the previous one's is reported only
once. This project models the bot's sequential logic and proves what it
does:

- `python.dfy` (module `Python`): the values a decoded JSON payload holds
  (`None`, int, str, list, dict), `str()` and `repr()` of them, and
  exceptions as a class tag plus an `args` tuple, with `str(exception)`
  (KeyError and its subclasses print their argument's `repr`, in quotes).
- `exceptions.dfy` (module `Exceptions`): the two exception classes
  `WrongType` and `WrongKey` with their stored fields and message.
- `homework.dfy` (module `Homework`): the status catalog, the response
  validator `check_response`, the status formatter `parse_status`, the
  start-up check `check_tokens`, and what is left of `get_api_answer` once
  the HTTP request is a parameter (the `from_date` default and the mapping
  of the HTTP outcome to a value or an exception).
- `poller.dfy` (module `Poller`): the body of `main`'s `while True` loop.
  `Cycle` states the effect of one iteration on the loop variables
  (`last_status`, `last_error`, `current_timestamp`) and the messages it
  sends; class `Bot` holds those variables and performs the iteration step
  by step (`Step`, with the `for` loop in `SendNotifications`), and each of
  its methods is proved to agree with `Cycle`. `Run` and `RunCycles` are a
  finite prefix of the loop.
- `poller_properties.dfy` (module `PollerProperties`): properties of one
  cycle and of runs of cycles, and worked payloads.

Sending a message is appending it to the bot's `sent` sequence: the
delivery call's own failures are caught and logged in the source, so they
change nothing. The clock is read as parameters: `fetchNow` for the
`time.time()` that `get_api_answer` falls back on, `doneNow` for the one
taken after the notifications. The environment variables are
`Option<string>` parameters.

## Behaviour as written

The model follows the code, including where it is not what a reader might
expect:

- Change detection compares the whole list; when anything differs, every
  item is notified again, not only the changed one (`OneChangeRenotifiesAll`).
- A missing `homework_name` is not an error; it prints as `None`
  (`OtherNameKeyPrintsNone`). Only an unknown status raises (KeyError), or a
  list or dict status (TypeError, unhashable), or an item that is not a dict
  (AttributeError on `.get`).
- When item `k` cannot be formatted, items `0..k-1` have already been sent,
  `last_status` is not updated, and the same payload on the next cycle sends
  them again while the repeated error is suppressed (`FormatFailureResendsPrefix`).
- Error de-duplication compares only `args`, never the class
  (`ClassIsIgnored`), and `last_error` is never cleared by a successful
  cycle, so the same error before and after a success is reported once
  (`RecoveryDoesNotResetErrorMemory`).
- Every HTTP status other than 200 raises the same `Exception('Не доступен
  эндпоинт')`, so two different failing codes in a row give one notification
  (`StatusCodesNotDistinguished`).
- A `RequestException` makes `get_api_answer` return `None`; the validator
  then raises TypeError "not a dict" (`RequestFailureReportedAsTypeError`).
- The validator raises plain TypeError and KeyError; `WrongType` and
  `WrongKey` are defined in exceptions.py but raised nowhere.
- The error text of a KeyError reaches the chat in quotes, because
  `str(KeyError(m))` is `repr(m)` (`MissingKeyReported`).
- The loop starts with an empty list as last seen, so a first payload with
  no homeworks sends nothing (`EmptyListsAreQuiet`).

## Model

| member | source | states |
|---|---|---|
| `Homework.CheckResponse` | homework.py:85-106 | a non-dict raises TypeError; a missing or None `homeworks` raises KeyError; a present non-list raises TypeError; it succeeds exactly for a dict whose `homeworks` is a list and then returns that list unchanged |
| `Homework.CheckResponseRoundTrip` | homework.py:99-106 | putting any list under `homeworks` of any dict and validating gives the same list back |
| `Homework.CheckResponseErrors` | homework.py:79-106 | the validator raises only TypeError or KeyError, with one argument; the None returned after a request failure is rejected as not a dict |
| `Homework.ParseStatus` | homework.py:109-123 | it succeeds exactly when the item is a dict whose status is `approved`, `reviewing` or `rejected`, and then gives the template with the printed name and that status's verdict; a non-dict raises AttributeError, a list or dict status TypeError, any other status KeyError naming it |
| `Homework.Notification` | homework.py:123 | the notification is as long as the fixed prefix, the name, the fixed infix and the verdict together |
| `Homework.NotificationFields` | homework.py:123 | the notification is the fixed prefix, the name, the fixed infix and the verdict, each unchanged at its own offset |
| `Homework.NotificationDetermines` | homework.py:123 | two notification texts built from catalog verdicts are equal only when the names and the verdicts are equal |
| `Homework.CatalogInjective` | homework.py:34-38 | the three status codes have three different verdicts |
| `Homework.VerdictEndings` | homework.py:34-38 | the verdicts end in different two-character endings |
| `Homework.ParseStatusInjective` | homework.py:113-123 | two items giving the same notification have the same status and names that print the same |
| `Homework.CheckTokens` | homework.py:126-147 | true exactly when all three tokens are set and non-empty |
| `Homework.FromDate` | homework.py:65 | the request cursor is the stored timestamp unless that is 0, then the current time |
| `Homework.ApiAnswer` | homework.py:67-82 | a request failure gives None; status 200 gives the decoded body; any other status raises Exception with the fixed endpoint text |
| `Exceptions.WrongType.Message` | exceptions.py:7-10 | the message's length is that of the template plus both arguments |
| `Exceptions.WrongType.AsError` | exceptions.py:1-11 | the exception is a TypeError (not a KeyError) whose `args` is exactly the one message |
| `Exceptions.WrongKey.Message` | exceptions.py:20-23 | the message's length is that of the template plus both arguments |
| `Exceptions.WrongKey.AsError` | exceptions.py:14-24 | the exception is a KeyError (not a TypeError) whose `args` is exactly the one message |
| `Exceptions.WrongTypeFieldsInMessage` | exceptions.py:4-10 | both stored fields sit unchanged at fixed offsets of the message |
| `Exceptions.WrongKeyFieldsInMessage` | exceptions.py:17-23 | both stored fields sit unchanged at fixed offsets of the message |
| `Exceptions.WrongTypeArgsDetermineFields` | exceptions.py:4-11 | equal `args` and a first argument of equal length mean equal fields |
| `Exceptions.WrongKeyArgsDetermineFields` | exceptions.py:17-24 | equal `args` and a first argument of equal length mean equal fields |
| `Exceptions.WrongTypeArgsAmbiguous` | exceptions.py:7-11 | two different WrongType instances can have the same `args` |
| `Exceptions.WrongKeyArgsAmbiguous` | exceptions.py:20-24 | two different WrongKey instances can have the same `args` |
| `Exceptions.ExceptionTexts` | exceptions.py:1-24 | `str()` of a WrongType is its message; `str()` of a WrongKey is the message's `repr` |
| `Python.Display` | homework.py:123 | an f-string placeholder prints a str as itself and None as `None` |
| `Python.ExcStr` | homework.py:185 | `str()` of a one-argument exception is the argument, or its `repr` for KeyError and subclasses |
| `Python.StrReprRoundTrip` | homework.py:185 | reading a `repr` back gives the original text |
| `Python.StrReprPlain` | homework.py:185 | text with nothing to escape is shown in single quotes, unchanged |
| `Poller.Startup` | homework.py:150-164 | the loop is entered exactly when the credential check passes, with an empty list last seen, no error remembered and the start time as cursor |
| `Poller.FailureMessage` | homework.py:185 | the error notification is the fixed failure prefix followed by `str(error)`: the argument itself, or its `repr` for KeyError and its subclasses |
| `Poller.Fetch` | homework.py:168-169 | a request failure raises the validator's TypeError, a non-200 status the endpoint Exception, and a 200 the validator's verdict on the body |
| `Poller.FormatAll` | homework.py:171-173 | each message is the formatting of the item at its position; with no failure there is one per item; with a failure the messages are those of the items before the first failing item and the failure is that item's |
| `Poller.FormatAllStops` | homework.py:171-173 | once a prefix has failed, the rest of the list is not formatted |
| `Poller.IsRepeat` | homework.py:182 | a caught exception counts as a repeat exactly when an exception is remembered and its `args` equal the caught one's, whatever the two classes; the sentinel set at line 163 repeats nothing |
| `Poller.OnFailure` | homework.py:180-188 | the except branch keeps the list and the cursor, remembers the caught exception (so that the same `args` next time is a repeat), keeps the messages already sent in the cycle and adds the error text after them exactly when it is not a repeat |
| `Poller.Cycle` | homework.py:166-188 | a cycle sets the list last seen only to the fetched list, the cursor only to the end-of-cycle time, and the error memory only to the exception that the fetch or the validator raised, or to the one raised while formatting the fetched list |
| `Poller.Run` | homework.py:166-188 | from any state, after any finite number of cycles (none included), the list last seen is the starting one or one that some cycle fetched, the cursor is the starting one or some cycle's end-of-cycle time, and an error remembered at the start is still remembered at the end |
| `Poller.RunKeepsError` | homework.py:166-188 | an error remembered after any cycle of a run is still remembered, perhaps replaced by a later one, when the run ends: no cycle resets the error memory |
| `Poller.Bot.constructor` | homework.py:158-164 | the loop variables start as an empty list, no error and the start time, with nothing sent |
| `Poller.Bot.Report` | homework.py:180-188 | the except branch remembers the exception and sends its text unless its `args` equal the last one's |
| `Poller.Bot.SendNotifications` | homework.py:171-173 | the `for` loop sends exactly the messages `FormatAll` gives and reports its failure, leaving the loop variables alone |
| `Poller.Bot.Step` | homework.py:166-188 | one iteration leaves the loop variables and the sent messages exactly as `Cycle` says, and returns the request's `from_date` |
| `Poller.Bot.RunCycles` | homework.py:166-188 | running cycles one after another is `Run` |
| `PollerProperties.UnchangedListIsQuiet` | homework.py:170-177 | an unchanged list sends nothing and keeps the list and the error memory; only the cursor moves |
| `PollerProperties.ChangedListNotifiesEveryItem` | homework.py:170-177 | a changed, fully formattable list sends one message per item in list order and becomes the list last seen; the error memory is kept |
| `PollerProperties.OneChangeRenotifiesAll` | homework.py:170-174 | in a two-item list, a change in the second item re-sends both notifications, in list order |
| `PollerProperties.FirstFailureUnique` | homework.py:171-172 | the first failing item is unique |
| `PollerProperties.FormatFailureSendsPrefix` | homework.py:171-187 | when item k fails, the first k messages are those of items 0..k-1, then the error text unless repeated; list and cursor are kept |
| `PollerProperties.FormatFailureResendsPrefix` | homework.py:171-187 | the same payload on the next cycle re-sends exactly those k messages and suppresses the error |
| `PollerProperties.FailureNotifiedIffNew` | homework.py:180-187 | a cycle whose request or validator raises sends the error text exactly when no error is remembered or the `args` differ, and remembers the new exception (for a `parse_status` failure see `FormatFailureSendsPrefix`) |
| `PollerProperties.FirstFailureAlwaysSent` | homework.py:163-187 | from the initial state, an error raised by the first cycle's request or validator is always sent |
| `PollerProperties.ClassIsIgnored` | homework.py:182-183 | an exception raised by the request or the validator, of another class than the remembered one but with the same `args`, is suppressed |
| `PollerProperties.SuccessKeepsLastError` | homework.py:167-178 | a cycle that raises nothing leaves the error memory as it was |
| `PollerProperties.RepeatedFailureNotifiesOnce` | homework.py:166-188 | the same cycle input, whose request or validator raises, repeated any number of times sends at most one error text, none if it repeats the remembered one |
| `PollerProperties.StatusCodesNotDistinguished` | homework.py:73-77 | with no error remembered, two cycles that get any two non-200 status codes give one notification, with the fixed endpoint text |
| `PollerProperties.RecoveryDoesNotResetErrorMemory` | homework.py:180-188 | an error raised by the request or the validator, a success, the same error: the third cycle sends nothing |
| `PollerProperties.SamePayloadTwiceIsQuiet` | homework.py:170-176 | after a cycle that raised nothing, the same list again sends nothing |
| `PollerProperties.ReviewingItemNotified` | homework.py:109-123 | from the start, the payload `{"homeworks": [{"homework_name": "hw1", "status": "reviewing"}]}` gives the one notification with the name `hw1` and the reviewing verdict |
| `PollerProperties.OtherNameKeyPrintsNone` | homework.py:110 | from the start, the payload `{"homeworks": [{"name": "hw1", "status": "reviewing"}]}`, whose name is under another key, is notified with the name `None` |
| `PollerProperties.EmptyListsAreQuiet` | homework.py:164-176 | two empty lists from the start send nothing |
| `PollerProperties.MissingKeyReported` | homework.py:93-97 | from the start, the payload `{"status": "ok"}`, which has no `homeworks`, sends one error text, the KeyError message in quotes |
| `PollerProperties.RequestFailureReportedAsTypeError` | homework.py:79-91 | from the start, a request failure sends one error text, the not-a-dict message |

## Left out

- The HTTP request (`requests.get`, the endpoint and the headers) and JSON decoding: the outcome of the request is a parameter, with the body already decoded; a body that is not valid JSON is not modelled.
- The Telegram `Bot`, `send_message`'s delivery and `Updater.start_polling`/`idle`: sending is appending to `Bot.sent`, and a failed delivery, which the source only logs, has no effect. `updater.idle()` blocks until the process gets a stop signal, so in the source the loop begins only after that; the model starts at the loop.
- `time.time()` and `time.sleep(RETRY_TIME)`: the clock readings are parameters and the sleep has no effect on the state.
- Logging and its set-up, `load_dotenv` and `os.getenv` (the tokens are parameters), and the commented-out `send_error`.
- The unbounded `while True`: `Run` and `Bot.RunCycles` cover any finite number of cycles.
- JSON booleans and floats: not in `Value`, because Python's `1 == True == 1.0` would make list equality differ from the structural equality the model uses.
- Python.Display: `str()` of a dict is the placeholder `{...}`, because the model's dicts keep no insertion order; `str()` of a list uses it for dict elements.
- Python.StrRepr: `repr` escapes only the C0 and C1 controls, DEL, the no-break space and the soft hyphen as `\xhh`; the other non-printable Unicode characters, which Python also escapes, are copied. `Python.EscapeChar`, `Python.StrReprRoundTrip`, `Python.StrReprPlain`, `Python.ExcStr` (the text of a KeyError), `Python.Display` (a list of str) and `Poller.FailureMessage` inherit this.
- `str()` of the arguments of `WrongType` and `WrongKey`: they are given as the already formatted strings.
- Exceptions that only the runtime raises (e.g. from the HTTP library's internals or memory exhaustion) are not modelled.
