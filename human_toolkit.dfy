/**
 * `HumanToolkit`: a toolkit, decorated with `auto_listen_toolkit(BaseToolkit)`,
 * whose two tools ask the user a question and send the user a notice. Both
 * are decorated with `listen_toolkit` themselves, so each call is bracketed
 * by an Activate and a Deactivate record around the record the tool puts.
 */
module Human {
  import opened Wrappers
  import opened PyValues
  import opened Task
  import opened ToolkitListen
  import opened AutoListen

  const AskName := "ask_human_via_gui"
  const SendName := "send_message_to_user"

  /** The names `HumanToolkit`'s class body defines, and so finds in its `__dict__`. */
  const OwnNames: set<string> := {"__init__", AskName, SendName, "get_tools", "get_can_use_tools"}

  /** The tools the class defines itself keep their definitions when `auto_listen_toolkit` runs. */
  lemma OwnMethodsNotRewrapped(base: map<string, Attr>)
    ensures forall n :: n in OwnNames ==> n !in Installations(base, OwnNames)
  {
  }

  /** The formatter's `__qualname__`: a lambda written in the class body. */
  const LambdaName := "HumanToolkit.<lambda>"

  /**
   * `inputs=lambda _, question: question`: the Activate message of
   * `ask_human_via_gui` is the question itself (a `str` by its annotation).
   */
  function AskInputs(lib: Library, call: Call): (r: Outcome<string>)
    ensures r.Returned? <==> BoundArg(call, 0, "question").Some?
    ensures r.Returned? ==> r.value == Render(lib, BoundArg(call, 0, "question").value)
    ensures r.Raised? ==> r.error == MissingArguments(LambdaName, ["question"])
  {
    match BoundArg(call, 0, "question")
    case Some(q) => Returned(Render(lib, q))
    case None => Raised(MissingArguments(LambdaName, ["question"]))
  }

  const AskListener := Listener(Some(AskInputs), None)

  /** The call `ask_human_via_gui(question)` as the wrapper sees it. */
  function AskCall(question: string): Call
  {
    Call([Text(question)], [])
  }

  /** The body of `ask_human_via_gui`: one ask action, then the user's reply is returned as it came. */
  function AskBody(question: string, agent: string, reply: string): BodyRun
  {
    BodyRun([Ask(question, agent)], Returned(Text(reply)))
  }

  /** `f" {message_attachment}" if message_attachment else ""`: a missing or empty attachment shows nothing. */
  function AttachmentInfo(attachment: Option<string>): (r: string)
    ensures attachment.Some? && attachment.value != "" ==> r == " " + attachment.value
    ensures attachment.None? || attachment.value == "" ==> r == ""
  {
    if attachment.Some? && attachment.value != "" then " " + attachment.value else ""
  }

  const ConfirmationStart := "Message successfully sent to user: '"

  /**
   * What `send_message_to_user` returns: the fixed opening, the title, a
   * space, the description and any attachment, closed by a quote.
   */
  function Confirmation(title: string, description: string, attachment: Option<string>): (r: string)
    ensures |r| == |ConfirmationStart| + |title| + 1 + |description| + |AttachmentInfo(attachment)| + 1
    ensures r[..|ConfirmationStart|] == ConfirmationStart
    ensures r[|ConfirmationStart|..|ConfirmationStart| + |title|] == title
    ensures r[|ConfirmationStart| + |title|] == ' '
    ensures r[|ConfirmationStart| + |title| + 1..|ConfirmationStart| + |title| + 1 + |description|] == description
    ensures r[|r| - 1 - |AttachmentInfo(attachment)|..|r| - 1] == AttachmentInfo(attachment)
    ensures r[|r| - 1] == '\''
  {
    ConfirmationStart + title + " " + description + AttachmentInfo(attachment) + "'"
  }

  /** An empty attachment reads exactly like a missing one. */
  lemma EmptyAttachmentIsOmitted(title: string, description: string)
    ensures Confirmation(title, description, Some("")) == Confirmation(title, description, None)
  {
  }

  /**
   * The call `send_message_to_user(title, description[, attachment])`, its
   * arguments passed by position; `None` for the attachment means it was
   * left out.
   */
  function SendCall(title: string, description: string, attachment: Option<string>): Call
  {
    Call([Text(title), Text(description)] + (if attachment.Some? then [Text(attachment.value)] else []), [])
  }

  /** The body of `send_message_to_user`: one notice carrying the description, then the confirmation. */
  function SendBody(title: string, description: string, attachment: Option<string>, processTaskId: string): BodyRun
  {
    BodyRun([Notice(processTaskId, description)], Returned(Text(Confirmation(title, description, attachment))))
  }

  /** `FunctionTool(toolkit.method)`: a tool bound to one toolkit instance. */
  datatype FunctionTool = FunctionTool(toolkit: HumanToolkit, name: string)

  class HumanToolkit {
    const apiTaskId: string
    const agentName: string
    /** What `toolkit_name()` returns for this toolkit; that method is not part of this model. */
    const toolkitName: string
    /** `get_task_lock(api_task_id)`. */
    const lock: TaskLock

    predicate Valid()
    {
      lock.taskId == apiTaskId
    }

    /** `__init__`: stores the task and agent and registers the agent for human input on the task. */
    constructor(apiTaskId: string, agentName: string, toolkitName: string, lock: TaskLock)
      requires lock.taskId == apiTaskId
      modifies lock`humanInputListeners
      ensures Valid()
      ensures this.apiTaskId == apiTaskId && this.agentName == agentName
      ensures this.toolkitName == toolkitName && this.lock == lock
      ensures lock.humanInputListeners == old(lock.humanInputListeners) + {agentName}
    {
      this.apiTaskId := apiTaskId;
      this.agentName := agentName;
      this.toolkitName := toolkitName;
      this.lock := lock;
      new;
      lock.AddHumanInputListen(agentName);
    }

    /** What the wrapper reads from this instance. */
    function AsReceiver(): (recv: Receiver)
      ensures recv.apiTaskId == Some(apiTaskId)
    {
      Receiver(Some(apiTaskId), agentName, toolkitName)
    }

    /**
     * The decorated `ask_human_via_gui`. `reply` is what
     * `get_human_input(agent_name)` delivers for this agent.
     */
    method AskHumanViaGui(question: string, reply: string, lib: Library, processTaskId: string)
      returns (r: Outcome<Value>)
      requires Valid()
      modifies lock`queue
      ensures lock.queue == old(lock.queue) + Intercepted(AskListener, Async, AsReceiver(), AskName, AskCall(question),
                                                          AskBody(question, agentName, reply), lib, processTaskId).events
      ensures r == Intercepted(AskListener, Async, AsReceiver(), AskName, AskCall(question),
                               AskBody(question, agentName, reply), lib, processTaskId).result
    {
      ghost var before := lock.queue;
      AskStarts(AsReceiver(), question, lib);
      var s := Begin(lock, AskListener, AsReceiver(), AskName, AskCall(question), lib, processTaskId);
      ghost var activate := ActivateEvent(s.pending, processTaskId, s.message);
      lock.PutQueue(Ask(question, agentName));
      AskCompletes(s.pending, reply, lib, processTaskId);
      ghost var c := Completion(AskListener, Async, s.pending, Returned(Text(reply)), lib, processTaskId);
      r := Finish(lock, AskListener, Async, s.pending, Returned(Text(reply)), lib, processTaskId);
      AppendInTurn(before, [activate], [Ask(question, agentName)], c.events);
      InterceptedStarted(AskListener, Async, AsReceiver(), AskName, AskCall(question),
                         AskBody(question, agentName, reply), lib, processTaskId, s.pending, s.message);
    }

    /** The decorated `send_message_to_user`. */
    method SendMessageToUser(title: string, description: string, attachment: Option<string>,
                             lib: Library, processTaskId: string) returns (r: Outcome<Value>)
      requires Valid()
      modifies lock`queue
      ensures lock.queue == old(lock.queue) + Intercepted(PlainListener, Sync, AsReceiver(), SendName,
                                                          SendCall(title, description, attachment),
                                                          SendBody(title, description, attachment, processTaskId),
                                                          lib, processTaskId).events
      ensures r == Intercepted(PlainListener, Sync, AsReceiver(), SendName, SendCall(title, description, attachment),
                               SendBody(title, description, attachment, processTaskId), lib, processTaskId).result
    {
      ghost var before := lock.queue;
      SendStarts(AsReceiver(), title, description, attachment, lib);
      var s := Begin(lock, PlainListener, AsReceiver(), SendName, SendCall(title, description, attachment), lib, processTaskId);
      ghost var activate := ActivateEvent(s.pending, processTaskId, s.message);
      lock.PutQueue(Notice(processTaskId, description));
      var confirmation := Confirmation(title, description, attachment);
      SendCompletes(s.pending, confirmation, lib, processTaskId);
      ghost var c := Completion(PlainListener, Sync, s.pending, Returned(Text(confirmation)), lib, processTaskId);
      r := Finish(lock, PlainListener, Sync, s.pending, Returned(Text(confirmation)), lib, processTaskId);
      AppendInTurn(before, [activate], [Notice(processTaskId, description)], c.events);
      InterceptedStarted(PlainListener, Sync, AsReceiver(), SendName, SendCall(title, description, attachment),
                         SendBody(title, description, attachment, processTaskId), lib, processTaskId, s.pending, s.message);
    }

    /** `get_tools`: the ask tool, then the send tool, both bound to this instance. */
    function GetTools(): (tools: seq<FunctionTool>)
      ensures |tools| == 2 && tools[0] == FunctionTool(this, AskName) && tools[1] == FunctionTool(this, SendName)
    {
      [FunctionTool(this, AskName), FunctionTool(this, SendName)]
    }

    /** `get_can_use_tools`: a new toolkit for the agent (so the agent is registered), offering only the ask tool. */
    static method GetCanUseTools(apiTaskId: string, agentName: string, toolkitName: string, lock: TaskLock)
      returns (tools: seq<FunctionTool>)
      requires lock.taskId == apiTaskId
      modifies lock`humanInputListeners
      ensures |tools| == 1 && tools[0].name == AskName
      ensures fresh(tools[0].toolkit) && tools[0].toolkit.Valid() && tools[0].toolkit.lock == lock
      ensures tools[0].toolkit.apiTaskId == apiTaskId && tools[0].toolkit.agentName == agentName
      ensures lock.humanInputListeners == old(lock.humanInputListeners) + {agentName}
    {
      var human := new HumanToolkit(apiTaskId, agentName, toolkitName, lock);
      tools := [FunctionTool(human, AskName)];
    }
  }

  /**
   * One `ask_human_via_gui` call: an Activate record whose message is the
   * question (truncated like any summary), exactly one ask action for this
   * agent, then a Deactivate record whose message is the reply verbatim; the
   * reply is returned unchanged.
   */
  lemma AskTrace(recv: Receiver, question: string, reply: string, lib: Library, processTaskId: string)
    requires recv.apiTaskId.Some?
    ensures var p := Pending(recv.agentName, recv.toolkitName, MethodName(AskName), AskName);
            Intercepted(AskListener, Async, recv, AskName, AskCall(question),
                        AskBody(question, recv.agentName, reply), lib, processTaskId)
            == Trace([ActivateEvent(p, processTaskId, Truncate(question))]
                     + [Ask(question, recv.agentName)]
                     + [DeactivateEvent(p, processTaskId, reply)],
                     Returned(Text(reply)))
  {
    var p := Pending(recv.agentName, recv.toolkitName, MethodName(AskName), AskName);
    AskStarts(recv, question, lib);
    AskCompletes(p, reply, lib, processTaskId);
    InterceptedStarted(AskListener, Async, recv, AskName, AskCall(question),
                       AskBody(question, recv.agentName, reply), lib, processTaskId, p, Truncate(question));
  }

  /** The default summary of the call, truncated, is the Activate record's message. */
  lemma SendStarts(recv: Receiver, title: string, description: string, attachment: Option<string>, lib: Library)
    requires recv.apiTaskId.Some?
    ensures StartOf(PlainListener, recv, SendName, SendCall(title, description, attachment), lib)
            == Started(Pending(recv.agentName, recv.toolkitName, MethodName(SendName), SendName),
                       Truncate(DefaultArgsSummary(lib, SendCall(title, description, attachment))))
  {
  }

  /** A string result is the Deactivate record's message verbatim and is returned. */
  lemma SendCompletes(p: Pending, confirmation: string, lib: Library, processTaskId: string)
    ensures Completion(PlainListener, Sync, p, Returned(Text(confirmation)), lib, processTaskId)
            == Trace([DeactivateEvent(p, processTaskId, confirmation)], Returned(Text(confirmation)))
  {
  }

  /** The question, truncated, is the Activate record's message. */
  lemma AskStarts(recv: Receiver, question: string, lib: Library)
    requires recv.apiTaskId.Some?
    ensures StartOf(AskListener, recv, AskName, AskCall(question), lib)
            == Started(Pending(recv.agentName, recv.toolkitName, MethodName(AskName), AskName), Truncate(question))
  {
  }

  /** The reply, returned as a string, is the Deactivate record's message verbatim. */
  lemma AskCompletes(p: Pending, reply: string, lib: Library, processTaskId: string)
    ensures Completion(AskListener, Async, p, Returned(Text(reply)), lib, processTaskId)
            == Trace([DeactivateEvent(p, processTaskId, reply)], Returned(Text(reply)))
  {
  }

  /**
   * One `send_message_to_user` call: an Activate record with the default
   * summary, exactly one notice carrying the description, then a Deactivate
   * record whose message is the confirmation verbatim (never truncated),
   * which is returned.
   */
  lemma SendTrace(recv: Receiver, title: string, description: string, attachment: Option<string>,
                  lib: Library, processTaskId: string)
    requires recv.apiTaskId.Some?
    ensures var call := SendCall(title, description, attachment);
            var p := Pending(recv.agentName, recv.toolkitName, MethodName(SendName), SendName);
            var confirmation := Confirmation(title, description, attachment);
            Intercepted(PlainListener, Sync, recv, SendName, call,
                        SendBody(title, description, attachment, processTaskId), lib, processTaskId)
            == Trace([ActivateEvent(p, processTaskId, Truncate(DefaultArgsSummary(lib, call)))]
                     + [Notice(processTaskId, description)]
                     + [DeactivateEvent(p, processTaskId, confirmation)],
                     Returned(Text(confirmation)))
  {
    var call := SendCall(title, description, attachment);
    var p := Pending(recv.agentName, recv.toolkitName, MethodName(SendName), SendName);
    var confirmation := Confirmation(title, description, attachment);
    SendStarts(recv, title, description, attachment, lib);
    SendCompletes(p, confirmation, lib, processTaskId);
    InterceptedStarted(PlainListener, Sync, recv, SendName, call,
                       SendBody(title, description, attachment, processTaskId), lib, processTaskId,
                       p, Truncate(DefaultArgsSummary(lib, call)));
  }
}
