/**
 * `PPTXToolkit`: the presentation toolkit of the document agent. Its own
 * `create_presentation` ensures the file name ends in `.pptx`, lets the base
 * toolkit write the file and, when the base reports success, puts a
 * write-file record naming the resolved path. The call is decorated with
 * `listen_toolkit` and an argument formatter that spells out all three
 * arguments as the caller gave them.
 */
module Pptx {
  import opened Wrappers
  import opened PyStrings
  import opened PyValues
  import opened Task
  import opened ToolkitListen
  import opened AutoListen

  const CreateName := "create_presentation"
  const Extension := ".pptx"
  /** The text by which the base toolkit's result announces a written file. */
  const SuccessMarker := "PowerPoint presentation successfully created"

  /** `.lower()` leaves the extension as it is. */
  lemma ExtensionIsLower()
    ensures Lower(Extension) == Extension
  {
    assert Lower(Extension)[0] == LowerChar('.') == '.';
  }

  /**
   * The names `PPTXToolkit`'s class body puts in its `__dict__`: the class
   * attribute `agent_name` (it has a value, so unlike a bare annotation it is
   * stored) and the two methods.
   */
  const OwnNames: set<string> := {"agent_name", "__init__", CreateName}

  /** The class's own `create_presentation`, with its formatter, is kept; the base's is not installed over it. */
  lemma OwnMethodsNotRewrapped(base: map<string, Attr>)
    ensures forall n :: n in OwnNames ==> n !in Installations(base, OwnNames)
  {
  }

  /**
   * `if not filename.lower().endswith(".pptx"): filename += ".pptx"`. The
   * result always ends in the extension, whatever its case, and always begins
   * with the name given; a name that already ends so is kept exactly.
   */
  function NormalizeFilename(filename: string): (r: string)
    ensures EndsWith(Lower(r), Extension)
    ensures StartsWith(r, filename)
    ensures EndsWith(Lower(filename), Extension) <==> r == filename
    ensures !EndsWith(Lower(filename), Extension) <==> r == filename + Extension
  {
    if EndsWith(Lower(filename), Extension) then filename
    else
      LowerConcat(filename, Extension);
      ExtensionIsLower();
      assert Lower(filename + Extension)[|filename|..] == Extension;
      assert (filename + Extension)[..|filename|] == filename;
      filename + Extension
  }

  /** Normalising twice is normalising once: a second call adds no second extension. */
  lemma NormalizeIdempotent(filename: string)
    ensures NormalizeFilename(NormalizeFilename(filename)) == NormalizeFilename(filename)
  {
  }

  const ContentLabel := "create presentation with content: "
  const FilenameLabel := ", filename: "
  const TemplateLabel := ", template: "

  /** Where the file name starts in a summary. */
  function FilenameAt(content: string): nat
  {
    |ContentLabel| + |content| + |FilenameLabel|
  }

  /**
   * The formatter's f-string. Each argument appears after its label, in the
   * order content, file name, template.
   */
  function PresentationSummary(content: string, filename: string, template: string): (r: string)
    ensures StartsWith(r, ContentLabel + content)
    ensures OccursAt(r, filename, FilenameAt(content))
    ensures EndsWith(r, TemplateLabel + template)
    ensures |r| == FilenameAt(content) + |filename| + |TemplateLabel| + |template|
  {
    var r := ContentLabel + content + FilenameLabel + filename + TemplateLabel + template;
    assert r[..|ContentLabel + content|] == ContentLabel + content;
    assert r[FilenameAt(content)..FilenameAt(content) + |filename|] == filename;
    assert r[|r| - |TemplateLabel + template|..] == TemplateLabel + template;
    r
  }

  /** The formatter's `__qualname__`: a lambda written in the class body. */
  const LambdaName := "PPTXToolkit.<lambda>"

  /**
   * The formatter `lambda _, content, filename, template=None: ...`:
   * `template` defaults to `None`, which the f-string shows as `None`; a call
   * lacking `content` or `filename` makes the lambda raise `TypeError`.
   */
  function PresentationInputs(lib: Library, call: Call): (r: Outcome<string>)
    ensures r.Returned? <==> BoundArg(call, 0, "content").Some? && BoundArg(call, 1, "filename").Some?
    ensures r.Returned? ==>
              r.value == PresentationSummary(Render(lib, BoundArg(call, 0, "content").value),
                                             Render(lib, BoundArg(call, 1, "filename").value),
                                             Render(lib, if BoundArg(call, 2, "template").Some?
                                                         then BoundArg(call, 2, "template").value else NoneValue))
    ensures BoundArg(call, 2, "template").None? && r.Returned? ==> EndsWith(r.value, TemplateLabel + "None")
    ensures r.Raised? ==> r.error.typeName == "TypeError" && StartsWith(r.error.message, LambdaName + "() missing ")
  {
    match (BoundArg(call, 0, "content"), BoundArg(call, 1, "filename"))
    case (Some(c), Some(f)) =>
      var t := match BoundArg(call, 2, "template") case Some(t) => t case None => NoneValue;
      Returned(PresentationSummary(Render(lib, c), Render(lib, f), Render(lib, t)))
    case (None, None) => Raised(MissingArguments(LambdaName, ["content", "filename"]))
    case (None, Some(_)) => Raised(MissingArguments(LambdaName, ["content"]))
    case (Some(_), None) => Raised(MissingArguments(LambdaName, ["filename"]))
  }

  const PresentationListener := Listener(Some(PresentationInputs), None)

  /** `str(template)` as the summary shows it. */
  function TemplateText(template: Option<string>): string
  {
    match template
    case Some(t) => t
    case None => "None"
  }

  /**
   * The call `create_presentation(content, filename[, template])`, its
   * arguments passed by position; `None` for the template means it was left
   * out.
   */
  function PresentationCall(content: string, filename: string, template: Option<string>): Call
  {
    Call([Text(content), Text(filename)] + (if template.Some? then [Text(template.value)] else []), [])
  }

  /**
   * `BasePPTXToolkit.create_presentation(content, filename, template)`: it
   * writes the file and returns a message, or raises. Its behaviour is not
   * part of this model.
   */
  type PresentationBase = (string, string, Option<string>) -> Outcome<string>

  /**
   * The body of `create_presentation`. `resolve` is `_resolve_filepath`,
   * which is applied to the normalised name. The base toolkit receives the
   * normalised name too; its outcome passes through unchanged, and at most
   * one record is put: a write-file record for the resolved path, exactly
   * when the base returned a message announcing success.
   */
  function PresentationBody(content: string, filename: string, template: Option<string>,
                            base: PresentationBase, resolve: string -> string, processTaskId: string): (b: BodyRun)
    ensures var res := base(content, NormalizeFilename(filename), template);
            && |b.emitted| <= 1
            && (b.emitted != [] <==> res.Returned? && Contains(res.value, SuccessMarker))
            && (forall e :: e in b.emitted ==> e == WriteFile(processTaskId, resolve(NormalizeFilename(filename))))
            && (res.Returned? ==> b.outcome == Returned(Text(res.value)))
            && (res.Raised? ==> b.outcome == Raised(res.error))
  {
    var name := NormalizeFilename(filename);
    match base(content, name, template)
    case Raised(e) => BodyRun([], Raised(e))
    case Returned(res) =>
      BodyRun(if Contains(res, SuccessMarker) then [WriteFile(processTaskId, resolve(name))] else [],
              Returned(Text(res)))
  }

  /** `working_directory`, falling back to the configured save path (`env("file_save_path", ~/Downloads)`). */
  function WorkingDirectory(given: Option<string>, savePath: string): (d: string)
    ensures given.Some? ==> d == given.value
    ensures given.None? ==> d == savePath
  {
    match given
    case Some(w) => w
    case None => savePath
  }

  class PPTXToolkit {
    const apiTaskId: string
    /** The class attribute `agent_name = Agents.document_agent`. */
    const agentName: string
    /** What `toolkit_name()` returns for this toolkit; that method is not part of this model. */
    const toolkitName: string
    const workingDirectory: string
    /** `get_task_lock(api_task_id)`. */
    const lock: TaskLock

    predicate Valid()
    {
      lock.taskId == apiTaskId
    }

    /** `__init__`: stores the task and the working directory, which defaults to the configured save path. */
    constructor(apiTaskId: string, agentName: string, toolkitName: string, workingDirectory: Option<string>,
                savePath: string, lock: TaskLock)
      requires lock.taskId == apiTaskId
      ensures Valid()
      ensures this.apiTaskId == apiTaskId && this.agentName == agentName && this.toolkitName == toolkitName
      ensures this.workingDirectory == WorkingDirectory(workingDirectory, savePath) && this.lock == lock
    {
      this.apiTaskId := apiTaskId;
      this.agentName := agentName;
      this.toolkitName := toolkitName;
      this.workingDirectory := WorkingDirectory(workingDirectory, savePath);
      this.lock := lock;
    }

    /** What the wrapper reads from this instance. */
    function AsReceiver(): (recv: Receiver)
      ensures recv.apiTaskId == Some(apiTaskId)
    {
      Receiver(Some(apiTaskId), agentName, toolkitName)
    }

    /** The undecorated `create_presentation`. */
    method PresentationBodyRun(content: string, filename: string, template: Option<string>,
                               base: PresentationBase, resolve: string -> string, processTaskId: string)
      returns (outcome: Outcome<Value>)
      modifies lock`queue
      ensures lock.queue == old(lock.queue) + PresentationBody(content, filename, template, base, resolve, processTaskId).emitted
      ensures outcome == PresentationBody(content, filename, template, base, resolve, processTaskId).outcome
    {
      var name := filename;
      if !EndsWith(Lower(name), Extension) {
        name := name + Extension;
      }
      assert name == NormalizeFilename(filename);
      var filePath := resolve(name);
      match base(content, name, template) {
        case Raised(e) =>
          outcome := Raised(e);
        case Returned(res) =>
          if Contains(res, SuccessMarker) {
            lock.PutQueue(WriteFile(processTaskId, filePath));
          }
          outcome := Returned(Text(res));
      }
    }

    /** The decorated `create_presentation` (a synchronous function, so the synchronous wrapper). */
    method CreatePresentation(content: string, filename: string, template: Option<string>,
                              base: PresentationBase, resolve: string -> string,
                              lib: Library, processTaskId: string) returns (r: Outcome<Value>)
      requires Valid()
      modifies lock`queue
      ensures lock.queue == old(lock.queue)
                            + Intercepted(PresentationListener, Sync, AsReceiver(), CreateName,
                                          PresentationCall(content, filename, template),
                                          PresentationBody(content, filename, template, base, resolve, processTaskId),
                                          lib, processTaskId).events
      ensures r == Intercepted(PresentationListener, Sync, AsReceiver(), CreateName,
                               PresentationCall(content, filename, template),
                               PresentationBody(content, filename, template, base, resolve, processTaskId),
                               lib, processTaskId).result
    {
      ghost var before := lock.queue;
      PresentationStarts(AsReceiver(), content, filename, template, lib);
      var s := Begin(lock, PresentationListener, AsReceiver(), CreateName,
                     PresentationCall(content, filename, template), lib, processTaskId);
      ghost var activate := ActivateEvent(s.pending, processTaskId, s.message);
      var outcome := PresentationBodyRun(content, filename, template, base, resolve, processTaskId);
      ghost var body := PresentationBody(content, filename, template, base, resolve, processTaskId);
      ghost var c := Completion(PresentationListener, Sync, s.pending, outcome, lib, processTaskId);
      r := Finish(lock, PresentationListener, Sync, s.pending, outcome, lib, processTaskId);
      AppendInTurn(before, [activate], body.emitted, c.events);
      InterceptedStarted(PresentationListener, Sync, AsReceiver(), CreateName,
                         PresentationCall(content, filename, template), body, lib, processTaskId,
                         s.pending, s.message);
    }
  }

  /** The Activate record's message is the summary of the arguments as given, truncated. */
  lemma PresentationStarts(recv: Receiver, content: string, filename: string, template: Option<string>, lib: Library)
    requires recv.apiTaskId.Some?
    ensures StartOf(PresentationListener, recv, CreateName, PresentationCall(content, filename, template), lib)
            == Started(Pending(recv.agentName, recv.toolkitName, MethodName(CreateName), CreateName),
                       Truncate(PresentationSummary(content, filename, TemplateText(template))))
  {
    PresentationCallFormatted(content, filename, template, lib);
  }

  /** The formatter applied to a positional call spells out the arguments as given. */
  lemma PresentationCallFormatted(content: string, filename: string, template: Option<string>, lib: Library)
    ensures PresentationInputs(lib, PresentationCall(content, filename, template))
            == Returned(PresentationSummary(content, filename, TemplateText(template)))
  {
    var call := PresentationCall(content, filename, template);
    assert BoundArg(call, 0, "content") == Some(Text(content));
    assert BoundArg(call, 1, "filename") == Some(Text(filename));
    if template.Some? {
      assert BoundArg(call, 2, "template") == Some(Text(template.value));
    } else {
      assert BoundArg(call, 2, "template") == None;
    }
  }

  /**
   * One `create_presentation` call whose base toolkit returns `res`: the
   * Activate record, a write-file record for the resolved `.pptx` path
   * exactly when `res` announces success, then a Deactivate record whose
   * message is `res` verbatim; `res` is returned.
   */
  lemma PresentationSucceeds(recv: Receiver, content: string, filename: string, template: Option<string>,
                             base: PresentationBase, resolve: string -> string, lib: Library, processTaskId: string)
    requires recv.apiTaskId.Some?
    requires base(content, NormalizeFilename(filename), template).Returned?
    ensures var res := base(content, NormalizeFilename(filename), template).value;
            var p := Pending(recv.agentName, recv.toolkitName, MethodName(CreateName), CreateName);
            var written := if Contains(res, SuccessMarker)
                           then [WriteFile(processTaskId, resolve(NormalizeFilename(filename)))] else [];
            Intercepted(PresentationListener, Sync, recv, CreateName, PresentationCall(content, filename, template),
                        PresentationBody(content, filename, template, base, resolve, processTaskId), lib, processTaskId)
            == Trace([ActivateEvent(p, processTaskId, Truncate(PresentationSummary(content, filename, TemplateText(template))))]
                     + written + [DeactivateEvent(p, processTaskId, res)],
                     Returned(Text(res)))
  {
    var res := base(content, NormalizeFilename(filename), template).value;
    var p := Pending(recv.agentName, recv.toolkitName, MethodName(CreateName), CreateName);
    var body := PresentationBody(content, filename, template, base, resolve, processTaskId);
    PresentationStarts(recv, content, filename, template, lib);
    assert Completion(PresentationListener, Sync, p, body.outcome, lib, processTaskId)
           == Trace([DeactivateEvent(p, processTaskId, res)], Returned(Text(res)));
    InterceptedStarted(PresentationListener, Sync, recv, CreateName, PresentationCall(content, filename, template),
                       body, lib, processTaskId, p, Truncate(PresentationSummary(content, filename, TemplateText(template))));
  }

  /**
   * One `create_presentation` call whose base toolkit raises an `Exception`:
   * no file is recorded; the Deactivate record carries the error's text and
   * the error is raised again.
   */
  lemma PresentationFails(recv: Receiver, content: string, filename: string, template: Option<string>,
                          base: PresentationBase, resolve: string -> string, lib: Library, processTaskId: string)
    requires recv.apiTaskId.Some?
    requires base(content, NormalizeFilename(filename), template).Raised?
    requires base(content, NormalizeFilename(filename), template).error.isException
    ensures var e := base(content, NormalizeFilename(filename), template).error;
            var p := Pending(recv.agentName, recv.toolkitName, MethodName(CreateName), CreateName);
            var t := Intercepted(PresentationListener, Sync, recv, CreateName, PresentationCall(content, filename, template),
                                 PresentationBody(content, filename, template, base, resolve, processTaskId), lib, processTaskId);
            t == Trace([ActivateEvent(p, processTaskId, Truncate(PresentationSummary(content, filename, TemplateText(template))))]
                       + [DeactivateEvent(p, processTaskId, e.message)],
                       Raised(e))
  {
    var e := base(content, NormalizeFilename(filename), template).error;
    var p := Pending(recv.agentName, recv.toolkitName, MethodName(CreateName), CreateName);
    FailedBody(content, filename, template, base, resolve, processTaskId);
    var m := Truncate(PresentationSummary(content, filename, TemplateText(template)));
    PresentationStarts(recv, content, filename, template, lib);
    RaisedCompletes(PresentationListener, Sync, p, e, lib, processTaskId);
    InterceptedStarted(PresentationListener, Sync, recv, CreateName, PresentationCall(content, filename, template),
                       BodyRun([], Raised(e)), lib, processTaskId, p, m);
    AppendInTurn([ActivateEvent(p, processTaskId, m)], [], [], [DeactivateEvent(p, processTaskId, e.message)]);
  }

  /** A failing base toolkit: no record is put and its error is the body's outcome. */
  lemma FailedBody(content: string, filename: string, template: Option<string>,
                   base: PresentationBase, resolve: string -> string, processTaskId: string)
    requires base(content, NormalizeFilename(filename), template).Raised?
    ensures PresentationBody(content, filename, template, base, resolve, processTaskId)
            == BodyRun([], Raised(base(content, NormalizeFilename(filename), template).error))
  {
  }

  /**
   * The Activate record reports the file name as the caller gave it, before
   * normalisation, while the file recorded is the normalised one: a short
   * enough summary shows the given name at its place, and a recorded path is
   * always resolved from a name ending in `.pptx`.
   */
  lemma ReportedAndWrittenNames(content: string, filename: string, template: Option<string>,
                                base: PresentationBase, resolve: string -> string, processTaskId: string)
    ensures var summary := PresentationSummary(content, filename, TemplateText(template));
            |summary| <= MaxLength ==> OccursAt(Truncate(summary), filename, FilenameAt(content))
    ensures forall e :: e in PresentationBody(content, filename, template, base, resolve, processTaskId).emitted ==>
              exists n :: EndsWith(Lower(n), Extension) && StartsWith(n, filename)
                          && e == WriteFile(processTaskId, resolve(n))
  {
    var n := NormalizeFilename(filename);
    assert EndsWith(Lower(n), Extension) && StartsWith(n, filename);
  }
}
