/**
 * `listen_toolkit`: the per-call interceptor that brackets one tool call with
 * an Activate record before the body runs and a Deactivate record after it,
 * in its two variants (for coroutine functions, awaiting `put_queue`, and for
 * plain functions, handing off through `_safe_put_queue`; both reduce to an
 * append to the task's queue).
 *
 * The wrapper is split where the program calls the wrapped function: `Begin`
 * is everything before `func(*args, **kwargs)`, `Finish` everything after
 * it, and `Intercept` runs the two around a body given abstractly by the
 * events it puts on the queue and how it ends. `Intercepted` is the
 * specification of one intercepted call as a value.
 */
module ToolkitListen {
  import opened Wrappers
  import opened PyStrings
  import opened PyValues
  import opened Task

  // ---------------------------------------------------------------------------
  // Truncation of summaries
  // ---------------------------------------------------------------------------

  /** `MAX_ARGS_LENGTH` for argument summaries and `MAX_LENGTH` for the `str()` fallback. */
  const MaxLength: nat := 500

  const NoteStart := "... (truncated, total length: "
  const NoteEnd := " chars)"

  /** The suffix a truncated summary carries, stating the untruncated length. */
  function TruncationNote(total: nat): string
  {
    NoteStart + DecimalString(total) + NoteEnd
  }

  /** A summary cut to `MaxLength` characters when longer, with a note of its full length. */
  function Truncate(s: string): (r: string)
    ensures |s| <= MaxLength ==> r == s
    ensures |s| > MaxLength ==> |r| > MaxLength && r[..MaxLength] == s[..MaxLength]
    ensures |s| > MaxLength ==> r[MaxLength..] == TruncationNote(|s|)
  {
    if |s| > MaxLength then s[..MaxLength] + TruncationNote(|s|) else s
  }

  /** The length a truncation note states, read back from the note. */
  function NotedLength(note: string): Option<nat>
  {
    if |note| >= |NoteStart| + |NoteEnd| && StartsWith(note, NoteStart) && EndsWith(note, NoteEnd)
       && AllDigits(note[|NoteStart|..|note| - |NoteEnd|])
    then Some(ParseDecimal(note[|NoteStart|..|note| - |NoteEnd|]))
    else None
  }

  /** What follows the first `MaxLength` characters of a truncated summary gives back the original length. */
  lemma TruncationNotesLength(s: string)
    requires |s| > MaxLength
    ensures NotedLength(Truncate(s)[MaxLength..]) == Some(|s|)
  {
    var note := TruncationNote(|s|);
    assert note[|NoteStart|..|note| - |NoteEnd|] == DecimalString(|s|);
    ParseDecimalString(|s|);
  }

  // ---------------------------------------------------------------------------
  // Calls and argument summaries
  // ---------------------------------------------------------------------------

  /**
   * The arguments of one call after the receiver `args[0]`: the remaining
   * positional arguments and the keyword arguments in the order given.
   */
  datatype Call = Call(positional: seq<Value>, keywords: seq<(string, Value)>)

  function Reprs(lib: Library, vs: seq<Value>): (r: seq<string>)
    ensures |r| == |vs| && forall i :: 0 <= i < |vs| ==> r[i] == lib.repr(vs[i])
  {
    seq(|vs|, i requires 0 <= i < |vs| => lib.repr(vs[i]))
  }

  function KeywordItems(lib: Library, kws: seq<(string, Value)>): (r: seq<string>)
    ensures |r| == |kws| && forall i :: 0 <= i < |kws| ==> r[i] == kws[i].0 + "=" + lib.repr(kws[i].1)
  {
    seq(|kws|, i requires 0 <= i < |kws| => kws[i].0 + "=" + lib.repr(kws[i].1))
  }

  /** Each argument as the default summary shows it: `repr(v)`, then `k=repr(v)`. */
  function SummaryItems(lib: Library, call: Call): seq<string>
  {
    Reprs(lib, call.positional) + KeywordItems(lib, call.keywords)
  }

  /**
   * The default argument summary. The program joins the positional reprs,
   * then the keyword items, and puts `", "` between the two only when the
   * first join is not empty. So a non-empty positional join is followed by
   * every keyword item, and an empty one leaves the keyword join alone.
   */
  function DefaultArgsSummary(lib: Library, call: Call): (r: string)
    ensures call.positional == [] || lib.repr(call.positional[0]) != "" ==>
              r == Join(", ", SummaryItems(lib, call))
    ensures call.keywords == [] ==> r == Join(", ", Reprs(lib, call.positional))
    ensures Join(", ", Reprs(lib, call.positional)) == "" ==> r == Join(", ", KeywordItems(lib, call.keywords))
    ensures r == if Join(", ", Reprs(lib, call.positional)) == "" then Join(", ", KeywordItems(lib, call.keywords))
                 else Join(", ", SummaryItems(lib, call))
  {
    var argsStr := Join(", ", Reprs(lib, call.positional));
    if call.keywords == [] then
      assert KeywordItems(lib, call.keywords) == [];
      assert SummaryItems(lib, call) == Reprs(lib, call.positional);
      argsStr
    else
      var kwargsStr := Join(", ", KeywordItems(lib, call.keywords));
      if argsStr != "" then
        JoinConcat(", ", Reprs(lib, call.positional), KeywordItems(lib, call.keywords));
        argsStr + ", " + kwargsStr
      else
        assert call.positional != [] ==> argsStr[..|lib.repr(call.positional[0])|] == lib.repr(call.positional[0]);
        assert call.positional == [] ==> SummaryItems(lib, call) == KeywordItems(lib, call.keywords);
        kwargsStr
  }

  /** The first value a keyword list gives for `name`. */
  function KeywordLookup(kws: seq<(string, Value)>, name: string): (r: Option<Value>)
    ensures r.Some? ==> exists i :: 0 <= i < |kws| && kws[i] == (name, r.value)
    ensures r.None? ==> forall i :: 0 <= i < |kws| ==> kws[i].0 != name
  {
    if kws == [] then None
    else if kws[0].0 == name then Some(kws[0].1)
    else
      var r := KeywordLookup(kws[1..], name);
      assert r.Some? ==> exists i :: 0 <= i < |kws| && kws[i] == (name, r.value) by {
        if r.Some? {
          var i :| 0 <= i < |kws[1..]| && kws[1..][i] == (name, r.value);
          assert kws[i + 1] == (name, r.value);
        }
      }
      r
  }

  /** The argument bound to the parameter at `index` (after the receiver) called `name`, if any. */
  function BoundArg(call: Call, index: nat, name: string): Option<Value>
  {
    if index < |call.positional| then Some(call.positional[index]) else KeywordLookup(call.keywords, name)
  }

  /**
   * The `TypeError` Python (3.10 and later) raises when a function is called
   * without the named required arguments; the function is named by its
   * `__qualname__`, such as `HumanToolkit.<lambda>` for a lambda written in a
   * class body.
   */
  function MissingArguments(qualname: string, names: seq<string>): (e: PyError)
    requires 1 <= |names| <= 2
    ensures e.typeName == "TypeError" && e.isException
    ensures StartsWith(e.message, qualname + "() missing ")
    ensures EndsWith(e.message, "'" + names[|names| - 1] + "'")
  {
    var head := qualname + "() missing ";
    var rest :=
      if |names| == 1 then "1 required positional argument: '" + names[0] + "'"
      else "2 required positional arguments: '" + names[0] + "' and '" + names[1] + "'";
    var message := head + rest;
    assert message[..|head|] == head;
    assert message[|message| - |"'" + names[|names| - 1] + "'"|..] == "'" + names[|names| - 1] + "'";
    PyError("TypeError", message, true)
  }

  // ---------------------------------------------------------------------------
  // Listeners, receivers and records
  // ---------------------------------------------------------------------------

  /**
   * The optional hooks of `listen_toolkit(wrap_method, inputs, return_msg)`:
   * a formatter of the arguments and a formatter of the result. A hook can
   * raise, so each gives an `Outcome`.
   */
  datatype Listener = Listener(inputs: Option<(Library, Call) -> Outcome<string>>,
                               returnMsg: Option<Value -> Outcome<string>>)

  /** `listen_toolkit()` with neither hook. */
  const PlainListener := Listener(None, None)

  /** The two wrapper variants; `listen_toolkit` picks one by `iscoroutinefunction(func)`. */
  datatype Variant = Async | Sync

  function VariantOf(isCoroutineFunction: bool): (v: Variant)
    ensures v == Async <==> isCoroutineFunction
  {
    if isCoroutineFunction then Async else Sync
  }

  /**
   * What the wrapper reads from the toolkit instance `args[0]`: its
   * `api_task_id` (absent on toolkits not wired to a task), its `agent_name`
   * and what its `toolkit_name()` returns.
   */
  datatype Receiver = Receiver(apiTaskId: Option<string>, agentName: string, toolkitName: string)

  /** `func.__name__.replace("_", " ")`: the name shown in both records. */
  function MethodName(funcName: string): (r: string)
    ensures |r| == |funcName| && '_' !in r
    ensures forall i :: 0 <= i < |r| ==> (r[i] == ' ' <==> funcName[i] == '_' || funcName[i] == ' ')
    ensures forall i :: 0 <= i < |r| && funcName[i] != '_' ==> r[i] == funcName[i]
  {
    var r := ReplaceChar(funcName, '_', ' ');
    assert forall i :: 0 <= i < |r| ==> r[i] != '_';
    r
  }

  /** Replacing underscores a second time changes nothing. */
  lemma MethodNameIdempotent(funcName: string)
    ensures MethodName(MethodName(funcName)) == MethodName(funcName)
  {
  }

  /** The fields both records of one call share. */
  datatype Pending = Pending(agentName: string, toolkitName: string, methodName: string, funcName: string)

  function ActivateEvent(p: Pending, processTaskId: string, message: string): ActionEvent
  {
    ActivateToolkit(p.agentName, processTaskId, p.toolkitName, p.methodName, message)
  }

  function DeactivateEvent(p: Pending, processTaskId: string, message: string): ActionEvent
  {
    DeactivateToolkit(p.agentName, processTaskId, p.toolkitName, p.methodName, message)
  }

  // ---------------------------------------------------------------------------
  // Before the body
  // ---------------------------------------------------------------------------

  /** The Activate message: the custom formatter's text or the default summary, truncated. */
  function ActivateMessage(listener: Listener, lib: Library, call: Call): Outcome<string>
  {
    match listener.inputs
    case None => Returned(Truncate(DefaultArgsSummary(lib, call)))
    case Some(inputs) =>
      match inputs(lib, call)
      case Returned(s) => Returned(Truncate(s))
      case Raised(e) => Raised(e)
  }

  /** How the part before the body ends: no instrumentation, a raising formatter, or an Activate put. */
  datatype Start = Bypass | Failed(error: PyError) | Started(pending: Pending, message: string)

  function StartOf(listener: Listener, recv: Receiver, funcName: string, call: Call, lib: Library): Start
  {
    if recv.apiTaskId.None? then Bypass
    else
      match ActivateMessage(listener, lib, call)
      case Raised(e) => Failed(e)
      case Returned(m) => Started(Pending(recv.agentName, recv.toolkitName, MethodName(funcName), funcName), m)
  }

  /** Whether the wrapper instruments the call at all and reaches the body. */
  predicate Instrumented(listener: Listener, recv: Receiver, call: Call, lib: Library)
  {
    recv.apiTaskId.Some? && ActivateMessage(listener, lib, call).Returned?
  }

  /**
   * The wrapper up to the call of `func`. `lock` is the task lock
   * `get_task_lock(api_task_id)` resolves; `processTaskId` is the ambient
   * `process_task.get("")`.
   */
  method Begin(lock: TaskLock, listener: Listener, recv: Receiver, funcName: string, call: Call,
               lib: Library, processTaskId: string) returns (s: Start)
    requires recv.apiTaskId.Some? ==> lock.taskId == recv.apiTaskId.value
    modifies lock`queue
    ensures s == StartOf(listener, recv, funcName, call, lib)
    ensures lock.queue == old(lock.queue) + (if s.Started? then [ActivateEvent(s.pending, processTaskId, s.message)] else [])
  {
    if recv.apiTaskId.None? {
      return Bypass;
    }
    var argsStr: string;
    match listener.inputs {
      case None =>
        argsStr := DefaultArgsSummary(lib, call);
      case Some(inputs) =>
        var formatted := inputs(lib, call);
        if formatted.Raised? {
          return Failed(formatted.error);
        }
        argsStr := formatted.value;
    }
    if |argsStr| > MaxLength {
      argsStr := argsStr[..MaxLength] + TruncationNote(|argsStr|);
    }
    var p := Pending(recv.agentName, recv.toolkitName, MethodName(funcName), funcName);
    lock.PutQueue(ActivateEvent(p, processTaskId, argsStr));
    s := Started(p, argsStr);
  }

  // ---------------------------------------------------------------------------
  // After the body
  // ---------------------------------------------------------------------------

  /** The text of the `TypeError` the synchronous wrapper raises for a coroutine result. */
  function MisuseMessage(funcName: string): string
  {
    "Async function " + funcName + " was incorrectly called in sync context. This is a bug - "
    + "the function should be marked as async or should not return a coroutine."
  }

  function MisuseError(funcName: string): PyError
  {
    PyError("TypeError", MisuseMessage(funcName), true)
  }

  /** The wrapper's `res` and `error` once the body has run, unless what it raised is not caught. */
  datatype AfterRun = Escaped(uncaught: PyError) | Ran(res: Value, error: Option<PyError>)

  function Caught(variant: Variant, funcName: string, outcome: Outcome<Value>): AfterRun
  {
    match outcome
    case Raised(e) => if e.isException then Ran(NoneValue, Some(e)) else Escaped(e)
    case Returned(v) =>
      if variant == Sync && v.Coroutine? then Ran(v, Some(MisuseError(funcName))) else Ran(v, None)
  }

  /**
   * The Deactivate message, in the program's order of preference: the result
   * formatter on success, a `str` result verbatim, its JSON form, and only
   * when `json.dumps` raises `TypeError` the truncated `str()`; after a
   * failure, `str(error)`. Any other exception `json.dumps` raises, and any
   * exception of the formatter, is not caught.
   */
  function ResultMessage(listener: Listener, res: Value, error: Option<PyError>, lib: Library): (r: Outcome<string>)
    ensures error.None? && listener.returnMsg.Some? ==> r == listener.returnMsg.value(res)
    ensures error.None? && listener.returnMsg.None? && res.Text? ==> r == Returned(res.s)
    ensures error.None? && listener.returnMsg.None? && !res.Text? && lib.jsonDumps(res).Dumps? ==>
              r == Returned(lib.jsonDumps(res).json)
    ensures error.None? && listener.returnMsg.None? && !res.Text? && lib.jsonDumps(res).DumpsTypeError? ==>
              r == Returned(Truncate(Render(lib, res))) && |r.value| <= MaxLength + |TruncationNote(|Render(lib, res)|)|
    ensures error.Some? && !res.Text? ==> r == Returned(error.value.message)
  {
    if listener.returnMsg.Some? && error.None? then
      listener.returnMsg.value(res)
    else if res.Text? then
      Returned(res.s)
    else if error.None? then
      match lib.jsonDumps(res)
      case Dumps(json) => Returned(json)
      case DumpsTypeError => Returned(Truncate(Render(lib, res)))
      case DumpsRaises(e) => Raised(e)
    else
      Returned(error.value.message)
  }

  /** The success message of a result `v`. */
  function SuccessMessage(listener: Listener, v: Value, lib: Library): Outcome<string>
  {
    ResultMessage(listener, v, None, lib)
  }

  /**
   * Whether what happens after the body leaves the wrapper before its
   * Deactivate record: the body raised something `except Exception` does not
   * catch, or building the success message raised.
   */
  predicate Escapes(listener: Listener, variant: Variant, outcome: Outcome<Value>, lib: Library)
  {
    match outcome
    case Raised(e) => !e.isException
    case Returned(v) => !(variant == Sync && v.Coroutine?) && SuccessMessage(listener, v, lib).Raised?
  }

  /** The records an intercepted call puts, and what it gives back to its caller. */
  datatype Trace = Trace(events: seq<ActionEvent>, result: Outcome<Value>)

  function Completion(listener: Listener, variant: Variant, p: Pending, outcome: Outcome<Value>,
                      lib: Library, processTaskId: string): Trace
  {
    match Caught(variant, p.funcName, outcome)
    case Escaped(e) => Trace([], Raised(e))
    case Ran(res, error) =>
      match ResultMessage(listener, res, error, lib)
      case Raised(e) => Trace([], Raised(e))
      case Returned(msg) =>
        Trace([DeactivateEvent(p, processTaskId, msg)], if error.Some? then Raised(error.value) else Returned(res))
  }

  /** The wrapper from the return of `func` on. */
  method Finish(lock: TaskLock, listener: Listener, variant: Variant, p: Pending, outcome: Outcome<Value>,
                lib: Library, processTaskId: string) returns (r: Outcome<Value>)
    modifies lock`queue
    ensures lock.queue == old(lock.queue) + Completion(listener, variant, p, outcome, lib, processTaskId).events
    ensures r == Completion(listener, variant, p, outcome, lib, processTaskId).result
  {
    var error: Option<PyError> := None;
    var res: Value := NoneValue;
    match outcome {
      case Raised(e) =>
        if !e.isException {
          return Raised(e);
        }
        error := Some(e);
      case Returned(v) =>
        res := v;
        if variant == Sync && res.Coroutine? {
          // the stray coroutine is closed and a TypeError raised in its place
          error := Some(MisuseError(p.funcName));
        }
    }
    var resMsg: string;
    if listener.returnMsg.Some? && error.None? {
      var formatted := listener.returnMsg.value(res);
      if formatted.Raised? {
        return Raised(formatted.error);
      }
      resMsg := formatted.value;
    } else if res.Text? {
      resMsg := res.s;
    } else if error.None? {
      match lib.jsonDumps(res) {
        case Dumps(json) =>
          resMsg := json;
        case DumpsTypeError =>
          var resStr := Render(lib, res);
          if |resStr| > MaxLength {
            resMsg := resStr[..MaxLength] + TruncationNote(|resStr|);
          } else {
            resMsg := resStr;
          }
        case DumpsRaises(e) =>
          return Raised(e);
      }
    } else {
      resMsg := error.value.message;
    }
    lock.PutQueue(DeactivateEvent(p, processTaskId, resMsg));
    if error.Some? {
      return Raised(error.value);
    }
    return Returned(res);
  }

  // ---------------------------------------------------------------------------
  // One whole call
  // ---------------------------------------------------------------------------

  /** The wrapped function's run, given by the records it puts itself and how it ends. */
  datatype BodyRun = BodyRun(emitted: seq<ActionEvent>, outcome: Outcome<Value>)

  function Last(events: seq<ActionEvent>): ActionEvent
    requires events != []
  {
    events[|events| - 1]
  }

  /**
   * One call of a method decorated with `listen_toolkit`: what it puts on the
   * queue and what its caller observes.
   */
  function Intercepted(listener: Listener, variant: Variant, recv: Receiver, funcName: string, call: Call,
                       body: BodyRun, lib: Library, processTaskId: string): Trace
  {
    match StartOf(listener, recv, funcName, call, lib)
    case Bypass => Trace(body.emitted, body.outcome)
    case Failed(e) => Trace([], Raised(e))
    case Started(p, m) =>
      var c := Completion(listener, variant, p, body.outcome, lib, processTaskId);
      Trace([ActivateEvent(p, processTaskId, m)] + body.emitted + c.events, c.result)
  }

  /** Records put one after another add up to their concatenation. */
  lemma AppendInTurn<T>(q: seq<T>, a: seq<T>, b: seq<T>, c: seq<T>)
    ensures q + a + b + c == q + (a + b + c)
  {
  }

  /** After a caught failure the Deactivate record carries the error's text, and the error is raised again. */
  lemma RaisedCompletes(listener: Listener, variant: Variant, p: Pending, e: PyError, lib: Library, processTaskId: string)
    requires e.isException
    ensures Completion(listener, variant, p, Raised(e), lib, processTaskId)
            == Trace([DeactivateEvent(p, processTaskId, e.message)], Raised(e))
  {
    assert Caught(variant, p.funcName, Raised(e)) == Ran(NoneValue, Some(e));
    assert ResultMessage(listener, NoneValue, Some(e), lib) == Returned(e.message);
  }

  /** Unfolding of an instrumented call once its start is known. */
  lemma InterceptedStarted(listener: Listener, variant: Variant, recv: Receiver, funcName: string, call: Call,
                           body: BodyRun, lib: Library, processTaskId: string, p: Pending, m: string)
    requires StartOf(listener, recv, funcName, call, lib) == Started(p, m)
    ensures var c := Completion(listener, variant, p, body.outcome, lib, processTaskId);
            Intercepted(listener, variant, recv, funcName, call, body, lib, processTaskId)
            == Trace([ActivateEvent(p, processTaskId, m)] + body.emitted + c.events, c.result)
  {
  }

  /** A receiver without `api_task_id`: the body runs as if undecorated and nothing else is put. */
  lemma BypassIsTransparent(listener: Listener, variant: Variant, recv: Receiver, funcName: string, call: Call,
                            body: BodyRun, lib: Library, processTaskId: string)
    requires recv.apiTaskId.None?
    ensures Intercepted(listener, variant, recv, funcName, call, body, lib, processTaskId) == Trace(body.emitted, body.outcome)
  {
  }

  /** An argument formatter that raises: nothing is put, the body does not run, the error reaches the caller. */
  lemma FormatterFailureRaises(listener: Listener, variant: Variant, recv: Receiver, funcName: string, call: Call,
                               body: BodyRun, lib: Library, processTaskId: string)
    requires recv.apiTaskId.Some? && ActivateMessage(listener, lib, call).Raised?
    ensures Intercepted(listener, variant, recv, funcName, call, body, lib, processTaskId)
            == Trace([], Raised(ActivateMessage(listener, lib, call).error))
  {
  }

  /**
   * An instrumented call puts its Activate record first, then the body's own
   * records; then, unless the call escapes, one Deactivate record naming the
   * same agent, toolkit and method. A call that escapes ends by raising.
   */
  lemma InterceptedShape(listener: Listener, variant: Variant, recv: Receiver, funcName: string, call: Call,
                         body: BodyRun, lib: Library, processTaskId: string)
    requires Instrumented(listener, recv, call, lib)
    ensures var t := Intercepted(listener, variant, recv, funcName, call, body, lib, processTaskId);
            && |t.events| >= |body.emitted| + 1
            && t.events[0] == ActivateToolkit(recv.agentName, processTaskId, recv.toolkitName, MethodName(funcName),
                                              ActivateMessage(listener, lib, call).value)
            && t.events[1..|body.emitted| + 1] == body.emitted
            && (Escapes(listener, variant, body.outcome, lib) ==>
                  |t.events| == |body.emitted| + 1 && t.result.Raised?)
            && (!Escapes(listener, variant, body.outcome, lib) ==>
                  && |t.events| == |body.emitted| + 2
                  && Last(t.events).DeactivateToolkit?
                  && Last(t.events).agentName == recv.agentName
                  && Last(t.events).processTaskId == processTaskId
                  && Last(t.events).toolkitName == recv.toolkitName
                  && Last(t.events).methodName == MethodName(funcName))
  {
    var t := Intercepted(listener, variant, recv, funcName, call, body, lib, processTaskId);
    assert t.events[1..|body.emitted| + 1] == body.emitted;
  }

  /** A failure of the body is reported by its text in the Deactivate record and raised again. */
  lemma FailureIsReRaised(listener: Listener, variant: Variant, recv: Receiver, funcName: string, call: Call,
                          body: BodyRun, lib: Library, processTaskId: string)
    requires Instrumented(listener, recv, call, lib)
    requires body.outcome.Raised? && body.outcome.error.isException
    ensures var t := Intercepted(listener, variant, recv, funcName, call, body, lib, processTaskId);
            t.events != [] && Last(t.events).DeactivateToolkit?
            && Last(t.events).message == body.outcome.error.message && t.result == body.outcome
  {
  }

  /** The synchronous wrapper refuses a coroutine result with a `TypeError` naming the function. */
  lemma CoroutineResultRefused(listener: Listener, recv: Receiver, funcName: string, call: Call,
                               body: BodyRun, lib: Library, processTaskId: string)
    requires Instrumented(listener, recv, call, lib)
    requires body.outcome.Returned? && body.outcome.value.Coroutine?
    ensures var t := Intercepted(listener, Sync, recv, funcName, call, body, lib, processTaskId);
            t.events != [] && Last(t.events).DeactivateToolkit?
            && Last(t.events).message == MisuseMessage(funcName) && t.result == Raised(MisuseError(funcName))
  {
  }

  /** A success is reported by its success message and returned unchanged. */
  lemma SuccessIsReturned(listener: Listener, variant: Variant, recv: Receiver, funcName: string, call: Call,
                          body: BodyRun, lib: Library, processTaskId: string)
    requires Instrumented(listener, recv, call, lib)
    requires body.outcome.Returned? && !(variant == Sync && body.outcome.value.Coroutine?)
    requires SuccessMessage(listener, body.outcome.value, lib).Returned?
    ensures var t := Intercepted(listener, variant, recv, funcName, call, body, lib, processTaskId);
            t.events != [] && Last(t.events).DeactivateToolkit?
            && Last(t.events).message == SuccessMessage(listener, body.outcome.value, lib).value
            && t.result == body.outcome
  {
  }

  /** The wrapped function's run: it puts its own records and ends as given. */
  method RunBody(lock: TaskLock, body: BodyRun) returns (outcome: Outcome<Value>)
    modifies lock`queue
    ensures lock.queue == old(lock.queue) + body.emitted && outcome == body.outcome
  {
    lock.queue := lock.queue + body.emitted;
    outcome := body.outcome;
  }

  /** `async_wrapper` / `sync_wrapper` around a body given abstractly. */
  method Intercept(lock: TaskLock, listener: Listener, variant: Variant, recv: Receiver, funcName: string,
                   call: Call, body: BodyRun, lib: Library, processTaskId: string) returns (r: Outcome<Value>)
    requires recv.apiTaskId.Some? ==> lock.taskId == recv.apiTaskId.value
    modifies lock`queue
    ensures lock.queue == old(lock.queue) + Intercepted(listener, variant, recv, funcName, call, body, lib, processTaskId).events
    ensures r == Intercepted(listener, variant, recv, funcName, call, body, lib, processTaskId).result
  {
    var s := Begin(lock, listener, recv, funcName, call, lib, processTaskId);
    match s {
      case Bypass =>
        r := RunBody(lock, body);
      case Failed(e) =>
        r := Raised(e);
      case Started(p, _) =>
        var outcome := RunBody(lock, body);
        r := Finish(lock, listener, variant, p, outcome, lib, processTaskId);
    }
  }

  // ---------------------------------------------------------------------------
  // Pairing
  // ---------------------------------------------------------------------------

  predicate IsActivation(e: ActionEvent) { e.ActivateToolkit? }
  predicate IsDeactivation(e: ActionEvent) { e.DeactivateToolkit? }

  function CountWhere(events: seq<ActionEvent>, p: ActionEvent -> bool): nat
  {
    if events == [] then 0 else (if p(events[0]) then 1 else 0) + CountWhere(events[1..], p)
  }

  lemma {:induction false} CountWhereConcat(a: seq<ActionEvent>, b: seq<ActionEvent>, p: ActionEvent -> bool)
    ensures CountWhere(a + b, p) == CountWhere(a, p) + CountWhere(b, p)
  {
    if a == [] {
      assert a + b == b;
    } else {
      assert (a + b)[1..] == a[1..] + b;
      CountWhereConcat(a[1..], b, p);
    }
  }

  /**
   * An instrumented call that does not escape adds exactly one Activate and
   * exactly one Deactivate record to those its body puts; one that escapes
   * adds the Activate record only.
   */
  lemma ExactlyOnePair(listener: Listener, variant: Variant, recv: Receiver, funcName: string, call: Call,
                       body: BodyRun, lib: Library, processTaskId: string)
    requires Instrumented(listener, recv, call, lib)
    ensures var t := Intercepted(listener, variant, recv, funcName, call, body, lib, processTaskId);
            CountWhere(t.events, IsActivation) == CountWhere(body.emitted, IsActivation) + 1
            && CountWhere(t.events, IsDeactivation) ==
               CountWhere(body.emitted, IsDeactivation) + (if Escapes(listener, variant, body.outcome, lib) then 0 else 1)
  {
    var t := Intercepted(listener, variant, recv, funcName, call, body, lib, processTaskId);
    var p := StartOf(listener, recv, funcName, call, lib).pending;
    var head := [t.events[0]];
    var tail := t.events[|body.emitted| + 1..];
    assert t.events == head + body.emitted + tail;
    CountWhereConcat(head + body.emitted, tail, IsActivation);
    CountWhereConcat(head, body.emitted, IsActivation);
    CountWhereConcat(head + body.emitted, tail, IsDeactivation);
    CountWhereConcat(head, body.emitted, IsDeactivation);
    assert CountWhere(head, IsActivation) == 1;
    assert CountWhere(head, IsDeactivation) == 0;
    if Escapes(listener, variant, body.outcome, lib) {
      assert tail == [];
    } else {
      assert tail == [Last(t.events)];
      assert CountWhere(tail, IsActivation) == 0;
      assert CountWhere(tail, IsDeactivation) == 1;
    }
  }
}
