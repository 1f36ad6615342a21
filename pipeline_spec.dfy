/**
 * The advanced-chat task pipeline as a pure state machine: one step function per mode, its
 * fold over a finite event sequence, and the properties of those folds. The imperative
 * pipeline in module `Pipeline` is proved to compute exactly these folds.
 */
module PipelineSpec {
  import opened Common
  import opened Errors
  import opened ResponseMeta
  import opened Entities
  import opened Frames

  /** `TaskState`: the answer so far, the metadata bag and the workflow run id. */
  datatype TaskValue = TaskValue(answer: string, metadata: TaskMetadata, workflowRunId: Option<string>)

  const InitialTask: TaskValue := TaskValue("", EmptyMetadata, None)

  /**
   * What the output moderation handler decides, as functions of text: whether the text
   * buffered so far must be output directly, the substitute answer then, and the result of the
   * final `moderation_completion` call on a completion.
   */
  datatype ModerationRule = ModerationRule(verdict: string -> bool, substitute: string -> string,
                                           redact: string -> string)

  /** The handler's own state: its rule, the tokens appended so far, and whether it was stopped. */
  datatype ModValue = ModValue(rule: ModerationRule, buffer: string, stopped: bool)

  /** The persisted `Message` row's fields that `_save_message` writes. */
  datatype MessageValue = MessageValue(answer: string, workflowRunId: Option<string>,
                                       messageTokens: int, messageUnitPrice: string,
                                       messagePriceUnit: string, answerTokens: int,
                                       answerUnitPrice: string, answerPriceUnit: string,
                                       totalPrice: string, currency: string)

  /**
   * Everything a step can change: task state, moderation handler (absent once released), the
   * message row, the rows committed so far, and the events published back onto the queue.
   */
  datatype World = World(task: TaskValue, mod: Option<ModValue>, message: MessageValue,
                         commits: seq<MessageValue>, published: seq<Event>)

  // ---------------------------------------------------------------------------------------
  // State updates shared by both modes

  function ApplyResources(t: TaskValue, rs: seq<Resource>): TaskValue {
    t.(metadata := t.metadata.(retrieverResources := Some(rs)))
  }

  /** An annotation found by id records who wrote it and replaces the whole answer. */
  function ApplyAnnotation(t: TaskValue, a: Option<Annotation>): TaskValue {
    match a
    case None => t
    case Some(x) =>
      var info := AnnotationInfo(x.id, x.accountId, x.accountName.GetOr("Dify user"));
      t.(metadata := t.metadata.(annotationReply := Some(info)), answer := x.content)
  }

  /** A succeeded LLM node overwrites the usage with its outputs' usage (`{}` if none). */
  function ApplyNodeFinished(t: TaskValue, n: NodeExecution): TaskValue {
    if n.status == NodeSucceeded && n.nodeType == LlmNode then
      t.(metadata := t.metadata.(usage := Some(n.usage.GetOr(EmptyUsage))))
    else t
  }

  /** The token and price fields of a truthy usage dict; an empty one copies nothing. */
  function CopyUsage(m: MessageValue, u: UsageInfo): MessageValue {
    match u
    case EmptyUsage => m
    case Usage(pt, pup, ppu, ct, cup, cpu, tp, cur) =>
      m.(messageTokens := pt, messageUnitPrice := pup, messagePriceUnit := ppu,
         answerTokens := ct, answerUnitPrice := cup, answerPriceUnit := cpu,
         totalPrice := tp, currency := cur)
  }

  /** `_save_message`: answer and run id always, usage fields only when usage is truthy. */
  function SavedMessage(m: MessageValue, t: TaskValue): MessageValue {
    var m1 := m.(answer := t.answer, workflowRunId := t.workflowRunId);
    match t.metadata.usage
    case Some(u) => CopyUsage(m1, u)
    case None => m1
  }

  /** Writing the message row and committing it. */
  function Save(w: World): World {
    var m := SavedMessage(w.message, w.task);
    w.(message := m, commits := w.commits + [m])
  }

  /** The metadata entry of a final response: absent unless the task collected some. */
  function FinalMetadata(ctx: Context, t: TaskValue): Option<ResponseMetadata> {
    if t.metadata.IsEmpty() then None else Some(ResponseMetadataFor(t.metadata, ctx.invokeFrom))
  }

  // ---------------------------------------------------------------------------------------
  // Streaming mode

  datatype StepOut = StepOut(w: World, frames: seq<Frame>, stop: bool)

  function ErrorFrame(ctx: Context, cause: Exc): Frame {
    Data(ErrorRecord(ErrorEnvelope(ctx.taskId, ctx.messageId, HandleError(cause))))
  }

  /** The error frame an error event or a failed run produces. */
  function EndFrame(ctx: Context, e: Event): Frame
    requires EndsStream(e)
  {
    if e.ErrorEvent? then ErrorFrame(ctx, e.cause) else ErrorFrame(ctx, RunFailedError(e.run.error))
  }

  function ReplaceRecord(ctx: Context, answer: string): Record {
    MessageReplaceResponse(ctx.taskId, ctx.messageId, ctx.conversationId, answer, ctx.messageCreatedAt)
  }

  function MessageEnd(ctx: Context, t: TaskValue): Record {
    MessageEndResponse(ctx.taskId, ctx.messageId, ctx.messageId, ctx.conversationId, FinalMetadata(ctx, t))
  }

  /**
   * Finalisation after a terminal event, streamed: moderation finalises the answer, is released
   * and a `message_replace` is emitted; the message is saved; `message_end` follows.
   */
  function StreamFinish(ctx: Context, w: World, pre: seq<Frame>): StepOut {
    match w.mod
    case None =>
      var w2 := Save(w);
      StepOut(w2, pre + [Data(MessageEnd(ctx, w2.task))], false)
    case Some(m) =>
      var t := w.task.(answer := m.rule.redact(w.task.answer));
      var w2 := Save(w.(task := t, mod := None));
      StepOut(w2, pre + [Data(ReplaceRecord(ctx, t.answer)), Data(MessageEnd(ctx, t))], false)
  }

  /** One iteration of `_process_stream_response`. */
  function StreamStep(ctx: Context, w: World, e: Event): StepOut {
    match e
    case ErrorEvent(c) => StepOut(w, [ErrorFrame(ctx, c)], true)
    case WorkflowStarted(_, run) =>
      StepOut(w.(task := w.task.(workflowRunId := Some(run.id))),
              [Data(WorkflowStartedResponse(ctx.taskId, run.id, run))], false)
    case NodeStarted(_, n) =>
      StepOut(w, [Data(NodeStartedResponse(ctx.taskId, n.workflowRunId, n))], false)
    case NodeFinished(_, n) =>
      StepOut(w.(task := ApplyNodeFinished(w.task, n)),
              [Data(NodeFinishedResponse(ctx.taskId, n.workflowRunId, n))], false)
    case StopEvent(_) => StreamFinish(ctx, w, [])
    case WorkflowFinished(id, run) =>
      if run.status == Succeeded then
        StreamFinish(ctx, w.(task := w.task.(answer := OutputText(run.outputsDict))),
                     [Data(WorkflowFinishedResponse(ctx.taskId, id, run))])
      else
        StepOut(w, [ErrorFrame(ctx, RunFailedError(run.error))], true)
    case RetrieverResources(rs) => StepOut(w.(task := ApplyResources(w.task, rs)), [], false)
    case AnnotationReply(_, a) => StepOut(w.(task := ApplyAnnotation(w.task, a)), [], false)
    case MessageFileEvent(_, f) =>
      var url := ctx.sign(f.id, FileExtension(f.url));
      StepOut(w, [Data(MessageFileResponse(ctx.conversationId, f.id, f.fileType, BelongsTo(f), url))], false)
    case TextChunk(None) => StepOut(w, [], false)
    case TextChunk(Some(text)) =>
      (match w.mod
      case Some(m) =>
        if m.rule.verdict(m.buffer) then
          var answer := m.rule.substitute(m.buffer);
          StepOut(w.(task := w.task.(answer := answer),
                     published := w.published + [TextChunk(Some(answer)), StopEvent(OutputModerationStop)]),
                  [], false)
        else
          StepOut(w.(mod := Some(m.(buffer := m.buffer + text)), task := w.task.(answer := w.task.answer + text)),
                  [Data(HandleChunk(ctx, text))], false)
      case None =>
        StepOut(w.(task := w.task.(answer := w.task.answer + text)), [Data(HandleChunk(ctx, text))], false))
    case MessageReplace(text) => StepOut(w, [Data(ReplaceRecord(ctx, text))], false)
    case Ping => StepOut(w, [PingFrame], false)
    case Unknown => StepOut(w, [], false)
  }

  datatype RunOut = RunOut(w: World, frames: seq<Frame>)

  /**
   * A loop over events that stops after the first step that says so, collecting the frames
   * every step emits.
   */
  function Fold(step: (World, Event) -> StepOut, w: World, events: seq<Event>): RunOut
    decreases |events|
  {
    if |events| == 0 then RunOut(w, [])
    else
      var s := step(w, events[0]);
      if s.stop then RunOut(s.w, s.frames)
      else
        var rest := Fold(step, s.w, events[1..]);
        RunOut(rest.w, s.frames + rest.frames)
  }

  /** The body of the streaming loop, for one request. */
  function StreamLoop(ctx: Context): (World, Event) -> StepOut {
    (w: World, e: Event) => StreamStep(ctx, w, e)
  }

  /** `_process_stream_response` over the events `listen()` delivers. */
  function RunStream(ctx: Context, w: World, events: seq<Event>): RunOut {
    Fold(StreamLoop(ctx), w, events)
  }

  // ---------------------------------------------------------------------------------------
  // Blocking mode

  datatype BlockingOutcome = Response(response: BlockingResponse) | Raised(error: Exc) | Exhausted

  datatype BlockStepOut = BlockStepOut(w: World, done: Option<BlockingOutcome>)

  /** The response's metadata: `{}` unless the task collected some. */
  function BlockingMetadata(ctx: Context, t: TaskValue): ResponseMetadata {
    FinalMetadata(ctx, t).GetOr(NoResponseMetadata)
  }

  /** Finalisation after a terminal event, blocking: the handler is stopped but kept. */
  function BlockingFinish(ctx: Context, w: World): BlockStepOut {
    var w1 :=
      match w.mod
      case None => w
      case Some(m) => w.(mod := Some(m.(stopped := true)), task := w.task.(answer := m.rule.redact(w.task.answer)));
    var w2 := Save(w1);
    var r := BlockingResponse(ctx.taskId, ctx.messageId, ctx.messageId, ctx.conversationId, ctx.mode,
                              w2.task.answer, BlockingMetadata(ctx, w2.task), ctx.messageCreatedAt);
    BlockStepOut(w2, Some(Response(r)))
  }

  /** One iteration of `_process_blocking_response`. */
  function BlockingStep(ctx: Context, w: World, e: Event): BlockStepOut {
    match e
    case ErrorEvent(c) => BlockStepOut(w, Some(Raised(HandleError(c))))
    case RetrieverResources(rs) => BlockStepOut(w.(task := ApplyResources(w.task, rs)), None)
    case AnnotationReply(_, a) => BlockStepOut(w.(task := ApplyAnnotation(w.task, a)), None)
    case WorkflowStarted(id, _) => BlockStepOut(w.(task := w.task.(workflowRunId := Some(id))), None)
    case NodeFinished(_, n) => BlockStepOut(w.(task := ApplyNodeFinished(w.task, n)), None)
    case StopEvent(_) => BlockingFinish(ctx, w)
    case WorkflowFinished(_, run) =>
      if run.status == Succeeded then BlockingFinish(ctx, w.(task := w.task.(answer := OutputText(run.outputs))))
      else BlockStepOut(w, Some(Raised(HandleError(RunFailedError(run.error)))))
    case _ => BlockStepOut(w, None)
  }

  /** `_process_blocking_response`; `Exhausted` is the implicit `None` when events run out. */
  function RunBlocking(ctx: Context, w: World, events: seq<Event>): (World, BlockingOutcome)
    decreases |events|
  {
    if |events| == 0 then (w, Exhausted)
    else
      var s := BlockingStep(ctx, w, events[0]);
      if s.done.Some? then (s.w, s.done.value)
      else RunBlocking(ctx, s.w, events[1..])
  }
}
