# Tool-call instrumentation of the agent toolkits

This project is a Dafny model of the layer that reports agent tool calls to
the user interface. The decorator `listen_toolkit` wraps a toolkit method and
brackets each call with an Activate record and a Deactivate record on the
task's queue:

- the Activate record carries a truncated summary of the arguments;
- the Deactivate record carries a message built from the result or from the
  error.

The class decorator `auto_listen_toolkit` installs such wrappers for a base
toolkit's public methods. Two toolkits built on this layer are modelled:

- `HumanToolkit`, which asks the user a question and sends the user notices;
- `PPTXToolkit.create_presentation`, which normalises the file name and
  records the written file.

Modules, one per file:

- `Wrappers`: `Option`.
- `PyStrings`: the Python string operations the code relies on. These are
  `", ".join`, `str.replace` of one character, ASCII `str.lower`,
  `startswith`, `endswith`, `in`, and `str(int)` with its inverse.
- `PyValues`: the Python values the wrappers look at and Python exceptions.
  `repr`, `str` and `json.dumps` are bundled as a `Library` of function
  parameters. `json.dumps` may return, raise `TypeError`, or raise anything
  else.
- `Task`: the task lock. It holds an append-only queue of action records and
  the set of agents registered for human input.
- `ToolkitListen`: `listen_toolkit`, split into two imperative methods:
  - `Begin` runs up to the call of the wrapped function;
  - `Finish` runs from its return on.

  Each is proved against a pure function, `StartOf` and `Completion`
  respectively. `Intercepted` composes them around an abstract run of the
  body (`BodyRun`: the records the body puts, and how it ends). The
  properties of whole calls are lemmas about `Intercepted`.
- `AutoListen`: `auto_listen_toolkit`. Its two loops and its `__wrapped__`
  loop are methods proved against set and map functions.
- `Human`, `Pptx`: the toolkits as classes. Each decorated method runs
  `Begin`, its own body and then `Finish`, and is proved equal to
  `Intercepted` of its own body. Lemmas then give the exact records a call
  puts.

Paths below are relative to the repository root of the modelled program.

## Model

| member | source | states |
|---|---|---|
| ToolkitListen.Truncate | backend/app/utils/listen/toolkit_listen.py:91-94 | A summary of at most 500 characters is unchanged. A longer one keeps its first 500 characters and is followed by the note `... (truncated, total length: N chars)`. |
| ToolkitListen.TruncationNotesLength | backend/app/utils/listen/toolkit_listen.py:94 | The number in the note of a truncated summary reads back as the summary's original length. |
| PyStrings.ParseDecimalString | backend/app/utils/listen/toolkit_listen.py:94 | `str(n)` for a length is digits only, with no leading zero, and parses back to `n`. |
| ToolkitListen.DefaultArgsSummary | backend/app/utils/listen/toolkit_listen.py:83-89 | The receiver is dropped and the `repr`s of the positional arguments are joined with `, `. Then `k=repr(v)` items follow in order, after a `, ` only when the positional part is non-empty. In full: when the positional join is empty the summary is the keyword join alone, and otherwise it is every item in order joined by `, `. |
| ToolkitListen.MissingArguments | backend/app/utils/toolkit/pptx_toolkit.py:29-32 | A formatter called without a required argument raises an `Exception` of type `TypeError`. Its message starts with the formatter's qualified name and `() missing `, and ends with the last missing name in quotes. |
| PyStrings.ContainsAt | backend/app/utils/toolkit/pptx_toolkit.py:40 | The `in` test on strings, `Contains`, holds exactly when the marker occurs at some position of the result. |
| PyStrings.JoinConcat | backend/app/utils/listen/toolkit_listen.py:89 | Joining two non-empty lists is joining each and putting the separator between them; this is how the keyword part is appended. |
| ToolkitListen.VariantOf | backend/app/utils/listen/toolkit_listen.py:68 | The asynchronous wrapper is chosen exactly when the wrapped function is a coroutine function. |
| ToolkitListen.MethodName | backend/app/utils/listen/toolkit_listen.py:97 | The reported name has the function name's length and no underscore. Each position is a space exactly where the name had `_` or a space; every other character is kept. |
| ToolkitListen.MethodNameIdempotent | backend/app/utils/listen/toolkit_listen.py:97 | Replacing underscores again changes nothing. |
| ToolkitListen.Begin | backend/app/utils/listen/toolkit_listen.py:72-107 | The part before the body, as `StartOf` defines it: no record without `api_task_id`; a formatter that raises puts no record; otherwise exactly one Activate record carrying the truncated summary. The synchronous copy is lines 155-190. |
| ToolkitListen.ResultMessage | backend/app/utils/listen/toolkit_listen.py:115-133 | The Deactivate message in order of preference: `return_msg(res)` on success; a `str` result verbatim; its JSON; the truncated `str(res)` only when `json.dumps` raises `TypeError`; after a failure, `str(error)`. |
| ToolkitListen.Finish | backend/app/utils/listen/toolkit_listen.py:191-237 | The part after the body, as `Completion` defines it. It covers the synchronous coroutine guard, `except Exception`, the message and the one Deactivate record, then the re-raise or the return. Both wrappers use it; the asynchronous copy is lines 108-147. |
| ToolkitListen.Intercept | backend/app/utils/listen/toolkit_listen.py:71-147 | A whole wrapped call puts exactly the records of `Intercepted` and gives back its result. |
| ToolkitListen.InterceptedStarted | backend/app/utils/listen/toolkit_listen.py:98-147 | After an Activate record come the body's records and then what completion adds. |
| ToolkitListen.RaisedCompletes | backend/app/utils/listen/toolkit_listen.py:112-146 | A caught failure gives one Deactivate record with the error's text, and the same error is raised. |
| ToolkitListen.BypassIsTransparent | backend/app/utils/listen/toolkit_listen.py:74-76 | Without `api_task_id` the call puts only the body's records and returns the body's outcome. |
| ToolkitListen.FormatterFailureRaises | backend/app/utils/listen/toolkit_listen.py:80-81 | An `inputs` formatter that raises: no record is put, the body does not run, and the error reaches the caller. |
| ToolkitListen.InterceptedShape | backend/app/utils/listen/toolkit_listen.py:98-144 | The Activate record comes first and carries the agent, the toolkit and `MethodName`, followed by the body's records. The last record is one Deactivate with the same agent, toolkit and method, unless the call escapes. An escaping call raises. |
| ToolkitListen.ExactlyOnePair | backend/app/utils/listen/toolkit_listen.py:98-147 | An instrumented call adds exactly one Activate record and exactly one Deactivate record to those of its body. It adds no Deactivate record only when it escapes. |
| ToolkitListen.FailureIsReRaised | backend/app/utils/listen/toolkit_listen.py:112-146 | A body raising an `Exception` gives a last record whose message is `str(error)`, and the same error is raised. |
| ToolkitListen.CoroutineResultRefused | backend/app/utils/listen/toolkit_listen.py:194-203 | A synchronous body returning a coroutine fails with the `TypeError` naming the function; the Deactivate message is its text. |
| ToolkitListen.SuccessIsReturned | backend/app/utils/listen/toolkit_listen.py:115-147 | On success the last record carries the success message and the body's result is returned unchanged. |
| Task.TaskLock.PutQueue | backend/app/utils/listen/toolkit_listen.py:21-57 | Handing a record over appends exactly that record to the task's queue. |
| AutoListen.BaseMethods | backend/app/utils/listen/toolkit_listen.py:284-290 | The collected names are exactly the base's names that are public, not excluded and callable; each maps to its attribute. |
| AutoListen.Innermost | backend/app/utils/listen/toolkit_listen.py:300-302 | The end of the `__wrapped__` chain is undecorated and lies on the chain. |
| AutoListen.InnermostUnique | backend/app/utils/listen/toolkit_listen.py:300-302 | Any undecorated function on the chain is that end. |
| AutoListen.Unwrap | backend/app/utils/listen/toolkit_listen.py:300-302 | The `while hasattr(..., '__wrapped__')` loop stops at an undecorated function on the chain, and so at `Innermost`. |
| AutoListen.WrapperFor | backend/app/utils/listen/toolkit_listen.py:298-316 | The installed wrapper is asynchronous exactly when the fully unwrapped base method is a coroutine function. |
| AutoListen.Installations | backend/app/utils/listen/toolkit_listen.py:292-321 | A wrapper is installed for exactly the base names that are public, callable, not in `EXCLUDED_METHODS` and not in `cls.__dict__`. |
| AutoListen.ReapplyInstallsNothing | backend/app/utils/listen/toolkit_listen.py:293-294 | Applying the decorator a second time installs nothing. |
| AutoListen.ApplyAutoListen | backend/app/utils/listen/toolkit_listen.py:282-323 | The class's members become its own members plus exactly `Installations`; no own member is replaced. |
| Human.OwnMethodsNotRewrapped | backend/app/utils/toolkit/human_toolkit.py:13-14 | The methods `HumanToolkit` defines get no wrapper from the class decorator. |
| Human.HumanToolkit.constructor | backend/app/utils/toolkit/human_toolkit.py:23-28 | Stores the task and the agent, and registers the agent for human input on that task's lock. |
| Human.AskInputs | backend/app/utils/toolkit/human_toolkit.py:30 | The formatter returns exactly when `question` is bound, and then returns the question as the f-string shows it. Otherwise it raises the `TypeError` of `HumanToolkit.<lambda>` naming `question`. |
| Human.AskStarts | backend/app/utils/toolkit/human_toolkit.py:30 | The Activate message of `ask_human_via_gui` is the question itself, truncated like any summary. |
| Human.AskCompletes | backend/app/utils/toolkit/human_toolkit.py:60-62 | The reply is the Deactivate message verbatim and is returned. |
| Human.AskTrace | backend/app/utils/toolkit/human_toolkit.py:30-62 | One call puts exactly these records, in order: Activate, one ask record `{question, agent}` for this agent, then Deactivate with the reply. The reply is returned unchanged. |
| Human.HumanToolkit.AskHumanViaGui | backend/app/utils/toolkit/human_toolkit.py:30-62 | The decorated method puts and returns exactly what `Intercepted` of its body gives, and so what `AskTrace` states. |
| Human.AttachmentInfo | backend/app/utils/toolkit/human_toolkit.py:123 | A present, non-empty attachment shows as a space then the attachment; a missing or empty one shows nothing. |
| Human.Confirmation | backend/app/utils/toolkit/human_toolkit.py:124 | The confirmation is the fixed opening, the title, a space, the description and any attachment text, closed by `'`. Each piece is at its stated position. |
| Human.EmptyAttachmentIsOmitted | backend/app/utils/toolkit/human_toolkit.py:123 | An empty attachment gives the same confirmation as none. |
| Human.SendStarts | backend/app/utils/toolkit/human_toolkit.py:64 | The Activate message of `send_message_to_user` is the truncated default summary of its arguments. |
| Human.SendCompletes | backend/app/utils/toolkit/human_toolkit.py:124 | The confirmation is the Deactivate message verbatim and is returned. |
| Human.SendTrace | backend/app/utils/toolkit/human_toolkit.py:64-124 | One call puts exactly these records: Activate, one notice whose data is the description and whose task id is the captured one, then Deactivate with the confirmation. The confirmation is returned. |
| Human.HumanToolkit.SendMessageToUser | backend/app/utils/toolkit/human_toolkit.py:64-124 | The decorated method puts and returns exactly what `Intercepted` of its body gives, and so what `SendTrace` states. |
| Human.HumanToolkit.GetTools | backend/app/utils/toolkit/human_toolkit.py:126-137 | Exactly two tools, both bound to this toolkit: ask, then send. |
| Human.HumanToolkit.GetCanUseTools | backend/app/utils/toolkit/human_toolkit.py:139-144 | Only the ask tool, bound to a new toolkit for the agent, so the agent is registered for human input. |
| Pptx.OwnMethodsNotRewrapped | backend/app/utils/toolkit/pptx_toolkit.py:12-14 | The class's own `create_presentation` keeps its formatter; the base's method is not installed over it. |
| Pptx.NormalizeFilename | backend/app/utils/toolkit/pptx_toolkit.py:35-36 | Lower-cased, the result ends in `.pptx`, and it begins with the given name. It is the given name exactly when that name already ends in `.pptx` in any case; otherwise it is the name plus `.pptx`. |
| Pptx.NormalizeIdempotent | backend/app/utils/toolkit/pptx_toolkit.py:35-36 | Normalising twice is normalising once. |
| Pptx.PresentationSummary | backend/app/utils/toolkit/pptx_toolkit.py:32 | The summary starts with the content label and the content. The file name sits at a fixed position after its label. The summary ends with the template label and the template. |
| Pptx.PresentationInputs | backend/app/utils/toolkit/pptx_toolkit.py:27-33 | The formatter returns exactly when `content` and `filename` are bound. Its text is then the summary of the bound content, file name and template, and `template` defaults to `None`, shown as `None`. Otherwise it raises the `TypeError` of `PPTXToolkit.<lambda>`. |
| Pptx.PresentationBody | backend/app/utils/toolkit/pptx_toolkit.py:34-50 | The base receives the normalised name and its result passes through unchanged. At most one record is put: a write-file record for the resolved normalised path, exactly when the result contains the success marker. |
| Pptx.WorkingDirectory | backend/app/utils/toolkit/pptx_toolkit.py:23-24 | A given working directory is kept; without one, the configured save path is used. |
| Pptx.PPTXToolkit.constructor | backend/app/utils/toolkit/pptx_toolkit.py:16-25 | Stores the task and the working directory, which falls back to the save path. |
| Pptx.PPTXToolkit.PresentationBodyRun | backend/app/utils/toolkit/pptx_toolkit.py:35-50 | The undecorated method reassigns the file name and puts the write-file record conditionally, exactly as `PresentationBody` states. |
| Pptx.PPTXToolkit.CreatePresentation | backend/app/utils/toolkit/pptx_toolkit.py:27-50 | The decorated method puts and returns exactly what `Intercepted` of its body gives. |
| Pptx.PresentationCallFormatted | backend/app/utils/toolkit/pptx_toolkit.py:29-32 | On a positional call the formatter's text is the summary of the content, the file name and the template as given, with `None` for an omitted template. |
| Pptx.PresentationStarts | backend/app/utils/toolkit/pptx_toolkit.py:27-33 | The Activate message is the truncated summary of the arguments as the caller gave them. |
| Pptx.PresentationSucceeds | backend/app/utils/toolkit/pptx_toolkit.py:38-50 | When the base returns, the records are Activate, the write-file record exactly when the result announces success, then Deactivate with the result verbatim. The result is returned. |
| Pptx.FailedBody | backend/app/utils/toolkit/pptx_toolkit.py:39 | A base that raises puts no record and its error is the body's outcome. |
| Pptx.PresentationFails | backend/app/utils/toolkit/pptx_toolkit.py:39 | When the base raises an `Exception`, the records are Activate and then Deactivate with the error's text; the error is raised and no file is recorded. |
| Pptx.ReportedAndWrittenNames | backend/app/utils/toolkit/pptx_toolkit.py:29-48 | A short summary shows the caller's file name, before normalisation, at its place. A recorded file is always resolved from a name that begins with the given name and ends in `.pptx`. |

## Left out

- Delivery of records: the model does not cover how `_safe_put_queue` and `put_queue` deliver them, which covers event-loop probing, background tasks, daemon threads and the order of delivery across threads. Each hand-off is modelled as an append to the task's queue that cannot fail.
- The text of `repr`, `str` and `json.dumps` for values other than `str` and `None`: library behaviour, taken as parameters.
- Python reflection: `dir`, `getattr`, `inspect.signature`, `functools.wraps` metadata and the `super(cls, self)` forwarding. They are reduced to a map from names to attributes with their `__wrapped__` chains. The `wrap_method` argument of `listen_toolkit` only affects metadata, so it is not modelled.
- Logging, `print`, and the `env("file_save_path", ...)` lookup: they are I/O. The configured save path is a parameter.
- `get_task_lock` is left out: the lock is passed in and tied to the toolkit's task id.
- `get_human_input` is left out: the reply is a parameter.
- `process_task.get("")` is read as one value per call.
- `toolkit_name()` is taken as a stored constant. `AbstractToolkit` is not part of this model.
- `BasePPTXToolkit.create_presentation` and `_resolve_filepath` are camel internals, so they are function parameters. `Agents.document_agent` is a constructor argument.
- The `timeout` argument of both constructors is not modelled: it is only handed to the camel base class's `__init__`.
- AutoListen.Unwrap: a `__wrapped__` chain is a finite value in the model, so the loop always ends. The source loop has no cycle guard, unlike `inspect.unwrap`, and never ends on a cycle such as a function whose `__wrapped__` is itself.
- MissingArguments: the message follows Python 3.10 and later, which the code needs for its `str | None` annotations. Only the prefix and the last name are stated, not the whole text.
- `res.close()` on a refused coroutine has no effect in the model.
- Python argument binding: calls are given as lists of positional and keyword arguments. A keyword binds a parameter only when not enough arguments are given by position. Errors for extra arguments are not modelled, and the toolkit methods are called with positional arguments.
- Lower: `str.lower` is modelled on ASCII letters only.
- Human.AskInputs: renders a question of a type other than `str` through the given `str` function. The formatter in fact passes the object through unchanged, and the wrapper only works on strings.
- `agent_name`, `api_task_id` and `toolkit_name()` are read once per call. An instance whose fields change in the middle of a call is not modelled.
- A `BaseException` that is not an `Exception`, such as `asyncio.CancelledError`, is not caught by `except Exception`. It leaves an Activate record with no Deactivate record. The model keeps this, as `Escapes` and `ExactlyOnePair` state.
- A `json.dumps` error other than `TypeError`, and an exception raised by the result formatter, also escape after the Activate record.
- DefaultArgsSummary: the separator before the keyword items depends on whether the positional part is non-empty, as the code tests `if args_str`. It does not depend on whether there is a positional argument. The two differ when the first of the positional arguments has an empty `repr` and it is the only one. The contract states the summary for every case in one clause.
