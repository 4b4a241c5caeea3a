/**
 * The per-task channel the instrumentation writes to (`get_task_lock(id)` in
 * the program). Its own module is not part of this model: only the two
 * operations the core calls are kept, as an append-only queue of actions and
 * the set of agents registered for human input. Delivery through an event
 * loop or a helper thread is modelled as the append itself.
 */
module Task {

  /** The action records put on a task's queue. */
  datatype ActionEvent =
    | ActivateToolkit(agentName: string, processTaskId: string, toolkitName: string, methodName: string, message: string)
    | DeactivateToolkit(agentName: string, processTaskId: string, toolkitName: string, methodName: string, message: string)
    | Ask(question: string, agent: string)
    | Notice(processTaskId: string, data: string)
    | WriteFile(processTaskId: string, data: string)

  class TaskLock {
    const taskId: string
    var queue: seq<ActionEvent>
    var humanInputListeners: set<string>

    constructor(taskId: string)
      ensures this.taskId == taskId && queue == [] && humanInputListeners == {}
    {
      this.taskId := taskId;
      queue := [];
      humanInputListeners := {};
    }

    /** `put_queue(data)`, and `_safe_put_queue(task_lock, data)` reduced to its effect. */
    method PutQueue(e: ActionEvent)
      modifies this`queue
      ensures queue == old(queue) + [e]
    {
      queue := queue + [e];
    }

    /** `add_human_input_listen(agent)`. */
    method AddHumanInputListen(agent: string)
      modifies this`humanInputListeners
      ensures humanInputListeners == old(humanInputListeners) + {agent}
    {
      humanInputListeners := humanInputListeners + {agent};
    }
  }
}
