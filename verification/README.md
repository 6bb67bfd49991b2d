# aisle, modelled in Dafny

aisle is a Jupyter extension that chats with a language model server. The
`%%ai` cell magic sends the cell to the model and shows the reply. The
`%panel` line magic changes the model settings. Behind the two magics sit
three module-level objects:

- `Backend` holds the settings: model, seed, temperature, reproducibility,
  and the fixed API address and streaming flag.
- `Messages` holds the conversation history and its session, user and AI
  counters.
- `Logs` is an append-only list of timestamped log entries.

This project models those objects, the `update_backend` driver, the two
magics, and the helpers of `aisle/_general.py` they rely on.

Every operation is first stated as a function on values. These are
`Settings`, `Conversation`, a list of log notes, and the `Update`, `Step`,
`Outcome` and `AiRun` records of what one call did. A class then changes
its fields in place, and each of its methods is proved to take its state
from `X` to `Spec(X)`. The properties the code promises are proved as
lemmas about the specification functions.

The outside world comes in as inputs:

- The clock is an `Instant`. The drivers take a function `clock`, and
  `clock(k)` is the reading at which log entry `k` is written.
- The reply of the model listing is a `TagsReply`.
- The chat server is a function from request to reply.
- The file system is a function from path to `FileState`. A `FileState`
  is a missing file, an unreadable file, or the base64 text of the
  file's bytes.
- Python's run-time types are a tagged `PyValue`. A `bool` counts as an
  `int`, as in Python. An option that is None is an absent `Option`, so
  the value of a given option is never `PyNone` (the `Given` type).
- A float carries its `repr` text, so the messages built from it are
  exact.

Modules:

| file | module | models |
|---|---|---|
| py_strings.dfy | PyStrings | the `str` operations the code uses: strip, lower, endswith, join, decimal text; a split at newlines that only states what `Backend.show`'s joined table holds |
| py_values.dfy | PyValues | `Option`/`Result`, Python values and floats, `max(0., min(t, 1.))` |
| general.dfy | General | `generate_timestamp`, `get_model_list`, `image2base64` |
| backend.dfy | Backends | `Backend` |
| logs.dfy | Logging | `Logs` |
| messages.dfy | Chat | `Messages` |
| source.dfy | Source | `update_backend` |
| main.dfy | Commands | `ai` and `panel` |

## Model

| member | source | states |
|---|---|---|
| General.DropLast3 | aisle/_general.py:59 | `s[:-3]` is a prefix of `s`, three characters shorter, or empty when `s` has fewer than three |
| General.TimestampShape | aisle/_general.py:43-59 | the timestamp is the `strftime` text with its last three (sub-millisecond) digits cut off and " UTC" appended, 27 characters in all |
| General.TimestampMilliseconds | aisle/_general.py:59 | characters 20-22 of the timestamp read back as the milliseconds of the clock reading |
| PyStrings.Pad | aisle/_general.py:59 | the zero-padded decimal field of a `strftime` directive has exactly the field width |
| PyStrings.PadRoundTrip | aisle/_general.py:59 | a number below 10^width reads back from its padded field |
| General.ListedNames | aisle/_general.py:86-87 | for every list of entries, a name is listed if and only if some entry under `models` carries it |
| PyStrings.StripEmptyIffBlank | aisle/_general.py:157 | `strip()` gives the empty string exactly for an all-whitespace path |
| PyStrings.Lower | aisle/_general.py:161 | `lower()` keeps the length and lower-cases each character on its own, mapping A-Z to a-z and leaving every other character alone |
| General.Image2Base64 | aisle/_general.py:129-176 | success exactly for a non-blank string path with a .jpg/.jpeg/.png suffix (any case) naming a readable file, the result then being the file's encoding; each failed check gives its own message, in the order path, extension, existence, read |
| General.ChecksPrecedeFileAccess | aisle/_general.py:157-166 | a path refused by the path or the extension check is refused the same way whatever the file system holds |
| General.ExtensionIgnoresCase | aisle/_general.py:154-162 | "cat.JPG" and "x.Jpeg" pass the extension check |
| General.SuffixEndsInG | aisle/_general.py:154-162 | every accepted suffix has four or more characters and ends in 'g', so a shorter name or one not ending in g/G is refused |
| General.ExtensionNeedsSuffix | aisle/_general.py:154-162 | "cat.gif", "cat.png.zip" and a bare "png" fail it |
| General.ExtensionCaseInsensitive | aisle/_general.py:154-162 | for every path, the extension check gives the same verdict on the path and on its lower-cased form |
| General.ExtensionBySuffix | aisle/_general.py:154-162 | for every path, the check passes exactly when the last four characters, lower-cased, are ".jpg" or ".png", or the last five are ".jpeg" |
| PyValues.Clamp | aisle/_backend.py:199 | `max(0., min(t, 1.))` is always a finite float in [0, 1]: `t` itself inside (0, 1], the literal 1. above, and 0. for zero, negatives, -inf and NaN |
| Backends.ModelUpdate | aisle/_backend.py:107-132 | the model changes to the new name exactly when the listing succeeds and holds that name; a failed listing returns its message; no other field changes; valid settings stay valid |
| Backends.SeedUpdate | aisle/_backend.py:134-153 | accepted exactly when the value is an `int` (a `bool` included), and then only the seed changes |
| Backends.ReproducibleUpdate | aisle/_backend.py:155-174 | accepted exactly when the value is a `bool`, and then only the switch changes |
| Backends.TemperatureUpdate | aisle/_backend.py:176-201 | accepted exactly when the value is a `float`; the stored value is the clamped one and lies in [0, 1]; a refusal changes nothing; only the temperature changes |
| Backends.SheetLines | aisle/_backend.py:212-222 | the table splits into the blank header, the separator, then the model, temperature, reproducible and seed rows in that order, each after the first behind one space |
| PyStrings.JoinedRowsSplit | aisle/_backend.py:222 | rows without a newline joined by "\n " split back at the newlines into the first row and the others indented by one space |
| Backends.Backend.constructor | aisle/_backend.py:70-75 | the defaults: model 'model:default', seed 0, temperature 0.4, reproducibility off, streaming off, the fixed API address |
| Backends.Backend.UpdateModel | aisle/_backend.py:107-132 | the method's result and new settings are those of `ModelUpdate` |
| Backends.Backend.UpdateSeed | aisle/_backend.py:134-153 | the method's result and new settings are those of `SeedUpdate` |
| Backends.Backend.UpdateReproducible | aisle/_backend.py:155-174 | the method's result and new settings are those of `ReproducibleUpdate` |
| Backends.Backend.UpdateTemperature | aisle/_backend.py:176-201 | the method's result and new settings are those of `TemperatureUpdate` |
| Backends.Backend.Show | aisle/_backend.py:203-222 | the table built row by row is `Sheet` of the current settings |
| Logging.Logs.constructor | aisle/_logs.py:61 | the log starts empty |
| Logging.Logs.Info | aisle/_logs.py:63-78 | exactly one entry ('I', the timestamp, the message) is appended and the earlier entries are kept; nothing is printed |
| Logging.Logs.Warning | aisle/_logs.py:80-96 | exactly one 'W' entry is appended, and the printed line is that entry's line in `show` |
| Logging.Logs.Error | aisle/_logs.py:98-114 | exactly one 'E' entry is appended, and the printed line is that entry's line in `show` |
| Logging.WarningEcho | aisle/_logs.py:94-96 | the line `warning` prints equals the line `show` prints for the new entry |
| Logging.ErrorEcho | aisle/_logs.py:112-114 | the line `error` prints equals the line `show` prints for the new entry |
| Logging.SliceFrom | aisle/_logs.py:135 | a Python slice `s[k:]` is a suffix of `s`; for k >= 0 it leaves out the first k elements (nothing remains when k exceeds the length), and for k < 0 it keeps the last -k, or all of `s` when -k exceeds the length |
| Logging.Recent | aisle/_logs.py:135 | the selected entries are a suffix of the log: the last n when there are more than n >= 1, all of them when there are at most n, all of them for n = 0 (`[-0:]`), and for negative n all but the first -n |
| Logging.ShowLines | aisle/_logs.py:130-140 | an empty log prints only "(No logs available)"; otherwise a header and one line per selected entry |
| Logging.ShowsLastEntries | aisle/_logs.py:135-140 | with more than n >= 1 entries, the lines are the header and then the lines of exactly the last n entries, in order |
| Logging.ShowsWholeLog | aisle/_logs.py:135-140 | with at most n entries, or n = 0, the lines are the header and then the line of every entry, in order |
| Logging.ListEntries | aisle/_logs.py:136-140 | the loop adds, after the header, exactly one line per entry, in order, each the entry's `[level timestamp] message` coloured by its level |
| Logging.Logs.Show | aisle/_logs.py:116-140 | the printed lines are `ShowLines` of the log: the no-logs line for an empty log, otherwise the header and one line per entry `Recent` selects |
| Logging.Logs.ShowDefault | aisle/_logs.py:116-135 | `show()` without a count lists 20: the header and the last 20 entry lines of a longer log, the header and every entry line of a non-empty shorter one |
| Logging.Stamped | aisle/_logs.py:77-78 | a run of log calls appends one entry per call |
| Logging.StampedEntries | aisle/_logs.py:77-78 | entry i of a run carries call i's level and message and the timestamp of clock reading start+i |
| Logging.StampNext | aisle/_logs.py:77-78 | appending the entry of one more call, stamped at the reading for the log's length, extends the run by that call |
| Logging.StampOne | aisle/_logs.py:77-78 | the same for any stamp function: the entry stamped with the next position's text extends the run |
| Chat.Assembled | aisle/_messages.py:80-115 | success exactly when the entry can be built, and then exactly that entry is appended and the user count grows by 1; on failure nothing changes and the error is returned; the history invariant is kept |
| Chat.Cleared | aisle/_messages.py:117-123 | an empty history, the next session, both turn counters 0; the history invariant is kept |
| Chat.Launched | aisle/_messages.py:163-174 | success exactly when the reply holds a `message`, and then the reply is appended and the AI count grows by 1; a missing field or a request error changes nothing and gives its message; the history invariant is kept |
| Chat.SessionLabelsDistinct | aisle/_messages.py:225 | different counter pairs give different session labels |
| PyStrings.NatRoundTrip | aisle/_messages.py:225 | the decimal text of a counter reads back as the counter |
| Chat.Messages.constructor | aisle/_messages.py:64-67 | an empty history, session 1, both turn counters 0, the invariant holding |
| Chat.Messages.Assemble | aisle/_messages.py:80-115 | the result and the new state are those of `Assembled`, and the invariant is kept |
| Chat.Messages.Clear | aisle/_messages.py:117-123 | the new state is `Cleared` of the old one, and the invariant is kept |
| Chat.Messages.Launch | aisle/_messages.py:125-174 | the request built from the backend's fields is `Payload`, and the result and new state are those of `Launched` for the server's reply; the invariant is kept |
| Chat.Messages.Show | aisle/_messages.py:176-225 | what is shown is `Shown` of the current state: nothing for an empty history, otherwise the last entry's content, raw or styled under the `session.ai` header |
| Source.RequestsFromArgs | aisle/_source.py:67-85 | the setter calls come in the order model, seed, temperature, reproducible, each at most once; a non-empty model and every other setting that is not None (so a seed of 0) is applied; nothing else is |
| Source.ApplyAll | aisle/_source.py:67-85 | a run of setter calls logs exactly one entry per call |
| Source.NotesOfRun | aisle/_source.py:67-85 | log entry i of a run is the verdict of setter call i |
| Source.VerdictIgnoresSettings | aisle/_source.py:69-85 | the level and message of a setter call do not depend on the settings it starts from |
| Source.SetterKeepsOthers | aisle/_backend.py:107-201 | a setter call changes no field but its own |
| Source.UntouchedFields | aisle/_source.py:67-85 | a field no call of the run sets keeps its value |
| Source.RunKeepsValid | aisle/_source.py:67-85 | from valid settings (integer seed, temperature in [0, 1]) a run ends in valid settings |
| Source.RunIsFold | aisle/_source.py:67-85 | the four `if`s of `update_backend` are the in-order fold of the setters over `Requests(args)` |
| Source.RunOfGroups | aisle/_source.py:67-85 | the fold over the four groups, one after the other, is the fold over their concatenation |
| Source.GroupStep | aisle/_source.py:67-85 | a group of at most one call extends the fold by that call |
| Source.ApplySnoc | aisle/_source.py:67-85 | extending a run by one call applies that call to the run's settings and logs its verdict |
| Source.GroupsFieldByField | aisle/_source.py:67-85 | each field ends as its own group's setter left it, untouched by the other groups |
| Source.FinalModel | aisle/_source.py:68-70 | the model ends as the given name when it is non-empty and listed, and as the old model otherwise |
| Source.FinalSeed | aisle/_source.py:73-75 | the seed ends as the given value when it is an `int`, 0 included, and as the old seed otherwise |
| Source.FinalTemperature | aisle/_source.py:78-80 | the temperature ends as the given float clamped to [0, 1], and as the old one when none or a non-float is given |
| Source.FinalReproducible | aisle/_source.py:83-85 | the switch ends as the given `bool`, and as the old one when none or a non-bool is given |
| Source.CallSetter | aisle/_source.py:67-85 | the backend method a call makes has the result and new settings of its setter function |
| Source.Record | aisle/_source.py:70 | `logs.info(message) if success else logs.error(message)` appends one entry of the matching level |
| Source.Step | aisle/_source.py:69-70 | one setter call and its log call extend the run by that call |
| Source.UpdateBackend | aisle/_source.py:45-85 | the backend ends in the settings of `UpdateBackendRun`, and the log is the old log plus one entry per applied setting, in order, stamped by the clock |
| Commands.AiClearsFirst | aisle/_main.py:80-85 | with `--clear` the first log entry reports the clear, the session counter grows by 1, and the new user turn is the first entry of the history |
| Commands.AiStopsOnAssembleError | aisle/_main.py:85-91 | when the cell cannot be assembled, one error entry is logged and the command stops: the server is never consulted, nothing is shown, and the conversation is the one after the optional clear |
| Commands.AiKeepsUserTurnOnLaunchError | aisle/_main.py:94-101 | when the request fails or the reply has no message, the last log entry is an error and nothing is shown, but the user turn stays in the history |
| Commands.AiShowsReply | aisle/_main.py:94-109 | on success the reply is appended; its content is shown raw exactly for format "raw" and styled otherwise; four entries are logged, the last reporting the display |
| Commands.AiKeepsConsistent | aisle/_main.py:79-109 | `%%ai` keeps history length = user count + AI count, however it ends |
| Commands.LogInfo | aisle/_main.py:79-109 | one `logs.info` call, stamped at the next clock reading, extends the logged run by an info note |
| Commands.LogError | aisle/_main.py:85-101 | one `logs.error` call, stamped at the next clock reading, extends the logged run by an error note |
| Commands.Ai | aisle/_main.py:46-109 | the conversation, the display and the log after the method are those of `AiFlow`, and the history invariant holds |
| Commands.Send | aisle/_main.py:93-109 | the steps after a successful `assemble` have the effect of `SendFlow` |
| Commands.Dispatch | aisle/_main.py:94-95 | the request is announced in the log with the backend's model, and then sent: the result and new conversation are those of `Launched` for the server's reply to `Payload` |
| Commands.ShowReply | aisle/_main.py:103-109 | the reply is shown at the clock reading of the next log entry, and then the display is logged |
| Commands.PanelGuardRedundant | aisle/_main.py:147-148 | the guard before `update_backend` changes nothing: with no option given the run neither changes the settings nor logs anything |
| Commands.ReproducibleFalseTurnsOn | aisle/_main.py:141 | `--reproducible False` switches reproducibility on; only an empty string switches it off |
| Commands.PanelTypedValuesApplied | aisle/_main.py:136-148 | a given seed, temperature (clamped) or switch is always stored, since the parsed values have the types the setters check for |
| Commands.UpdateIfAnyGiven | aisle/_main.py:146-148 | the backend and the log are those of `update_backend` when an option is given, and unchanged otherwise |
| Commands.ListForSettingsTab | aisle/_source.py:184-190 | the settings tab's drop-down lists the models again and adds one error entry with the listing's message when that listing fails, and nothing otherwise |
| Commands.PanelLogsListingFailure | aisle/_source.py:184-190 | building the settings tab never changes the settings; it adds exactly one error entry, with the listing's failure message, when its listing fails, so `%panel` with no option can still log an error |
| Commands.Panel | aisle/_main.py:112-153 | the backend and the log after the method are those of the guarded `update_backend` followed by the settings tab's listing |

## Left out

- HTTP is not modelled. The GET of the model listing is the `TagsReply` it produced. The POST of the chat request is a `server` function from request to reply. Timeouts, status checks and JSON decoding fold into the reply's error cases.
- The clock, the file system and base64 encoding are inputs. `os.path.isfile`, `open` and `b64encode` become a `FileState`, and the base64 text is taken as given.
- `temperature2color` (matplotlib) is not modelled. Neither is the HTML of the styled reply that uses it (aisle/_messages.py:199, 207-226): the model shows the styled reply as its header line and content.
- The ipywidgets panels (`panel_status`, `panel_logs`, `panel_settings` and the setting widgets) and the tab assembly of `panel` (aisle/_main.py:151-163) are UI and are not modelled. The one exception is the effect on the log of building the settings tab: `panel_model_setting` fetches the model list again and logs a failed listing as an error (aisle/_source.py:184-190), and `Commands.Panel` models that. The callbacks of the widgets, which call the setters and log when the user later changes a setting, are not modelled.
- argparse and shlex are not modelled. The magics take the parsed arguments. `ai`'s format choice check and argparse's own errors are not modelled.
- Console output is modelled where a method returns it: `Logs.warning`/`error` return their echoed line and `Logs.show` returns its lines. The drivers do not collect the lines printed by the logs they write.
- Float arithmetic and float-to-text conversion are not modelled. A float is a real with its `repr` text, as supplied with the input, plus NaN and the infinities. The clamp only compares values and returns either the input or a literal, so it is exact.
- PyStrings.Lower: maps ASCII letters only. No non-ASCII character lowercases to one of the characters of ".jpg", ".jpeg" or ".png", so the extension check is unaffected.
- General.GetModelList: the reply is narrowed to a JSON object whose `models`, when present, is a list of entries with a `name`. Three replies that raise in the source are not modelled: an entry without a `name` key raises `KeyError` (aisle/_general.py:87), a `models` value that is `null` or not a list raises `TypeError` (aisle/_general.py:87), and a JSON body that is not an object raises `AttributeError` at `.get` (aisle/_general.py:86). None of these is caught.
- General.GetModelList: which message a body that is not JSON gets depends on the requests version. From requests 2.27, `response.json()` raises an exception that is both a `RequestException` and a `ValueError`, so the first `except` (aisle/_general.py:89-90) takes it and the "accessing" message results; the model counts such a body as `RequestFailed`. `ParseFailed` stands for a `ValueError` that is not a requests exception, which the second `except` (aisle/_general.py:92-93) catches.
- Chat.Launched: the reply is narrowed to a `message` that is an object with a `role`, a `content` string and optional `images`. The source appends whatever value sits under `message` (aisle/_messages.py:165-167). When that value is `null`, not an object, or has no `content`, "AI response has been received." is logged and `show` then raises at aisle/_messages.py:200; the model does not capture that exception.
- Chat.Payload: the history sent is a projection of the source's. Keys of a reply's `message` other than `role`, `content` and `images` (such as `tool_calls`) stay in the source's history and are posted back with the next request (aisle/_messages.py:152); `ChatEntry` does not hold them.
- `Messages.messages` and `Logs.logs` are class attributes shared by every instance. The model has one object of each, as the module creates.
- General.GenerateTimestamp: the year is padded to four digits. This matches `strftime` for years 1000-9999, and smaller years are not considered.
- Commands.Ai: the clock is indexed by the number of log entries. The styled reply's header is stamped with the clock reading of the log entry that follows it, since no entry is written between the two readings.
