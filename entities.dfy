/**
 * The queue events the advanced-chat pipeline consumes. The rows the pipeline reads back from
 * the database for an event (workflow run, node execution, message file, annotation) ride on
 * the event as payload.
 */
module Entities {
  import opened Common
  import opened Errors
  import opened ResponseMeta

  datatype RunStatus = Running | Succeeded | Failed | Stopped
  datatype NodeStatus = NodeRunning | NodeSucceeded | NodeFailed
  datatype NodeType = StartNode | EndNode | AnswerNode | LlmNode | KnowledgeRetrievalNode
                    | IfElseNode | CodeNode | ToolNode | OtherNode(name: string)

  /**
   * A `WorkflowRun` row. `outputs` is what its `outputs` attribute yields as a mapping (read by
   * the blocking loop) and `outputsDict` what its `outputs_dict` property yields (read by the
   * streaming loop); both are restricted to string values.
   */
  datatype WorkflowRun = WorkflowRun(id: string, workflowId: string, status: RunStatus,
                                     outputs: map<string, string>, outputsDict: map<string, string>,
                                     error: Option<string>,
                                     elapsedTime: string, totalTokens: int, totalSteps: int,
                                     createdAt: int, finishedAt: int)

  /** A `WorkflowNodeExecution` row; `usage` is `outputs.get('usage')`. */
  datatype NodeExecution = NodeExecution(id: string, workflowRunId: string, nodeId: string,
                                         index: int, predecessorNodeId: Option<string>,
                                         nodeType: NodeType, status: NodeStatus,
                                         usage: Option<UsageInfo>, error: Option<string>,
                                         createdAt: int, finishedAt: int)

  /** A `MessageFile` row. */
  datatype MessageFileRow = MessageFileRow(id: string, url: string, fileType: string,
                                           belongsTo: Option<string>)

  /** An annotation as the annotation service returns it; `accountName` is absent without an account. */
  datatype Annotation = Annotation(id: string, accountId: string, accountName: Option<string>,
                                   content: string)

  datatype StopBy = UserManual | AnnotationReplyStop | OutputModerationStop

  /** The queue events; `Unknown` stands for every event kind the pipeline skips. */
  datatype Event =
    | ErrorEvent(cause: Exc)
    | WorkflowStarted(workflowRunId: string, run: WorkflowRun)
    | NodeStarted(nodeExecutionId: string, node: NodeExecution)
    | NodeFinished(nodeExecutionId: string, node: NodeExecution)
    | WorkflowFinished(workflowRunId: string, run: WorkflowRun)
    | StopEvent(stoppedBy: StopBy)
    | TextChunk(text: Option<string>)
    | MessageReplace(replacement: string)
    | MessageFileEvent(messageFileId: string, file: MessageFileRow)
    | RetrieverResources(resources: seq<Resource>)
    | AnnotationReply(messageAnnotationId: string, annotation: Option<Annotation>)
    | Ping
    | Unknown

  /**
   * Everything the pipeline reads from its generate entity, conversation and message, plus the
   * file-signing collaborator.
   */
  datatype Context = Context(taskId: string, messageId: string, conversationId: string,
                             mode: string, messageCreatedAt: int, invokeFrom: InvokeFrom,
                             sign: (string, string) -> string)

  /** The run's own events: errors, stops, and workflow and node progress. */
  predicate IsRunEvent(e: Event) {
    e.ErrorEvent? || e.WorkflowStarted? || e.NodeStarted? || e.NodeFinished? ||
    e.WorkflowFinished? || e.StopEvent?
  }

  /** A terminal event: a stop, or the end of the workflow run. */
  predicate IsTerminal(e: Event) {
    e.StopEvent? || e.WorkflowFinished?
  }

  /** An event that ends the streaming loop: an error, or a run that did not succeed. */
  predicate EndsStream(e: Event) {
    e.ErrorEvent? || (e.WorkflowFinished? && e.run.status != Succeeded)
  }

  /** The answer a successful run hands over: `outputs.get('text', '')`. */
  function OutputText(outputs: map<string, string>): string {
    if "text" in outputs then outputs["text"] else ""
  }
}
