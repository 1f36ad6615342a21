/**
 * `AdvancedChatAppGenerateTaskPipeline` as objects: the task state, the output moderation
 * handler and the message row are updated in place, and both dispatch loops are proved to
 * compute the folds of module `PipelineSpec`.
 */
module Pipeline {
  import opened Common
  import opened Errors
  import opened ResponseMeta
  import opened Entities
  import opened Frames
  import opened PipelineSpec

  /** `TaskState`, mutated by the dispatcher. */
  class TaskState {
    var answer: string
    var metadata: TaskMetadata
    var workflowRunId: Option<string>

    constructor ()
      ensures Value() == InitialTask
    {
      answer := "";
      metadata := EmptyMetadata;
      workflowRunId := None;
    }

    function Value(): TaskValue
      reads this
    {
      TaskValue(answer, metadata, workflowRunId)
    }
  }

  /**
   * `OutputModeration` seen from the pipeline: it buffers appended tokens, can be asked
   * whether to output directly, yields a final output and moderates a completion.
   */
  class OutputModeration {
    const rule: ModerationRule
    var buffer: string
    var stopped: bool

    constructor (rule: ModerationRule)
      ensures Value() == ModValue(rule, "", false)
    {
      this.rule := rule;
      buffer := "";
      stopped := false;
    }

    function Value(): ModValue
      reads this
    {
      ModValue(rule, buffer, stopped)
    }

    function ShouldDirectOutput(): bool
      reads this
    {
      rule.verdict(buffer)
    }

    function GetFinalOutput(): string
      reads this
    {
      rule.substitute(buffer)
    }

    method AppendNewToken(text: string)
      modifies this
      ensures Value() == old(Value()).(buffer := old(buffer) + text)
    {
      buffer := buffer + text;
    }

    method StopThread()
      modifies this
      ensures Value() == old(Value()).(stopped := true)
    {
      stopped := true;
    }

    method ModerationCompletion(completion: string) returns (r: string)
      ensures r == rule.redact(completion)
    {
      r := rule.redact(completion);
    }
  }

  /** The `Message` row; reloading it by id yields this same object (the session's identity map). */
  class MessageRecord {
    const id: string
    var answer: string
    var workflowRunId: Option<string>
    var messageTokens: int
    var messageUnitPrice: string
    var messagePriceUnit: string
    var answerTokens: int
    var answerUnitPrice: string
    var answerPriceUnit: string
    var totalPrice: string
    var currency: string

    constructor (id: string, m: MessageValue)
      ensures this.id == id && Value() == m
    {
      this.id := id;
      answer, workflowRunId := m.answer, m.workflowRunId;
      messageTokens, messageUnitPrice, messagePriceUnit := m.messageTokens, m.messageUnitPrice, m.messagePriceUnit;
      answerTokens, answerUnitPrice, answerPriceUnit := m.answerTokens, m.answerUnitPrice, m.answerPriceUnit;
      totalPrice, currency := m.totalPrice, m.currency;
    }

    method SetResult(answer: string, workflowRunId: Option<string>)
      modifies this
      ensures Value() == old(Value()).(answer := answer, workflowRunId := workflowRunId)
    {
      this.answer := answer;
      this.workflowRunId := workflowRunId;
    }

    /** The usage copy of `_save_message`, done only when the usage is truthy. */
    method CopyUsageFrom(u: UsageInfo)
      modifies this
      ensures Value() == CopyUsage(old(Value()), u)
    {
      if u.Usage? {
        messageTokens, messageUnitPrice, messagePriceUnit := u.promptTokens, u.promptUnitPrice, u.promptPriceUnit;
        answerTokens, answerUnitPrice, answerPriceUnit := u.completionTokens, u.completionUnitPrice, u.completionPriceUnit;
        totalPrice, currency := u.totalPrice, u.currency;
      }
    }

    function Value(): MessageValue
      reads this
    {
      MessageValue(answer, workflowRunId, messageTokens, messageUnitPrice, messagePriceUnit,
                   answerTokens, answerUnitPrice, answerPriceUnit, totalPrice, currency)
    }
  }

  class TaskPipeline {
    const ctx: Context
    const task: TaskState
    const message: MessageRecord
    var moderation: OutputModeration?
    /** The rows committed through the storage collaborator, in order. */
    var commits: seq<MessageValue>
    /** The events this pipeline published back onto its queue, in order. */
    var published: seq<Event>

    constructor (ctx: Context, message: MessageRecord, moderation: OutputModeration?)
      ensures this.ctx == ctx && this.message == message && this.moderation == moderation
      ensures Snapshot() == World(InitialTask, if moderation == null then None else Some(moderation.Value()),
                                  message.Value(), [], [])
    {
      this.ctx := ctx;
      this.message := message;
      this.moderation := moderation;
      task := new TaskState();
      commits := [];
      published := [];
    }

    /** The whole state the dispatcher acts on, as a value. */
    function Snapshot(): World
      reads this, task, message, moderation
    {
      World(task.Value(), if moderation == null then None else Some(moderation.Value()),
            message.Value(), commits, published)
    }

    /** `_save_message`: write answer, run id and (if usage is truthy) usage, then commit. */
    method SaveMessage()
      modifies this, message
      ensures moderation == old(moderation)
      ensures Snapshot() == Save(old(Snapshot()))
    {
      message.SetResult(task.answer, task.workflowRunId);
      if task.metadata.usage.Some? {
        message.CopyUsageFrom(task.metadata.usage.value);
      }
      commits := commits + [message.Value()];
    }

    /** `response['metadata'] = self._get_response_metadata()` when the task metadata is non-empty. */
    method FinalResponseMetadata() returns (md: Option<ResponseMetadata>)
      ensures md == FinalMetadata(ctx, task.Value())
    {
      md := None;
      if !task.metadata.IsEmpty() {
        var r := GetResponseMetadata(task.metadata, ctx.invokeFrom);
        md := Some(r);
      }
    }

    /** Finalisation in streaming mode, after the frames `pre` of the terminal event. */
    method StreamFinalize(pre: seq<Frame>) returns (frames: seq<Frame>)
      requires message.id == ctx.messageId
      modifies this, task, message, moderation
      ensures moderation == null
      ensures var s := StreamFinish(ctx, old(Snapshot()), pre);
              Snapshot() == s.w && frames == s.frames
    {
      frames := pre;
      if moderation != null {
        moderation.StopThread();
        var answer := moderation.ModerationCompletion(task.answer);
        task.answer := answer;
        moderation := null;
        frames := frames + [Data(ReplaceRecord(ctx, answer))];
      }
      SaveMessage();
      var md := FinalResponseMetadata();
      frames := frames + [Data(MessageEndResponse(ctx.taskId, message.id, message.id, ctx.conversationId, md))];
    }

    /** A text chunk in streaming mode. */
    method StreamTextChunk(text: string) returns (frames: seq<Frame>)
      modifies this, task, moderation
      ensures moderation == old(moderation)
      ensures var s := StreamStep(ctx, old(Snapshot()), TextChunk(Some(text)));
              Snapshot() == s.w && frames == s.frames
    {
      if moderation != null {
        if moderation.ShouldDirectOutput() {
          task.answer := moderation.GetFinalOutput();
          published := published + [TextChunk(Some(task.answer))];
          published := published + [StopEvent(OutputModerationStop)];
          frames := [];
          return;
        } else {
          moderation.AppendNewToken(text);
        }
      }
      task.answer := task.answer + text;
      frames := [Data(HandleChunk(ctx, text))];
    }

    /** One iteration of `_process_stream_response`. */
    method StreamDispatch(e: Event) returns (frames: seq<Frame>, stop: bool)
      requires message.id == ctx.messageId
      modifies this, task, message, moderation
      ensures moderation == null || moderation == old(moderation)
      ensures var s := StreamStep(ctx, old(Snapshot()), e);
              Snapshot() == s.w && frames == s.frames && stop == s.stop
    {
      if IsRunEvent(e) {
        frames, stop := StreamRunEvent(e);
      } else {
        frames, stop := StreamMessageEvent(e);
      }
    }

    /** The branches of `StreamDispatch` for error, stop and workflow and node events. */
    method StreamRunEvent(e: Event) returns (frames: seq<Frame>, stop: bool)
      requires IsRunEvent(e)
      requires message.id == ctx.messageId
      modifies this, task, message, moderation
      ensures moderation == null || moderation == old(moderation)
      ensures var s := StreamStep(ctx, old(Snapshot()), e);
              Snapshot() == s.w && frames == s.frames && stop == s.stop
    {
      stop := false;
      match e {
        case ErrorEvent(c) =>
          var data := ErrorToStreamResponseData(ctx.taskId, message.id, HandleError(c));
          frames := [Data(ErrorRecord(data))];
          stop := true;
        case WorkflowStarted(_, run) =>
          task.workflowRunId := Some(run.id);
          frames := [Data(WorkflowStartedResponse(ctx.taskId, run.id, run))];
        case NodeStarted(_, n) =>
          frames := [Data(NodeStartedResponse(ctx.taskId, n.workflowRunId, n))];
        case NodeFinished(_, n) =>
          if n.status == NodeSucceeded && n.nodeType == LlmNode {
            task.metadata := task.metadata.(usage := Some(n.usage.GetOr(EmptyUsage)));
          }
          frames := [Data(NodeFinishedResponse(ctx.taskId, n.workflowRunId, n))];
        case StopEvent(_) =>
          frames := StreamFinalize([]);
        case WorkflowFinished(id, run) =>
          if run.status == Succeeded {
            task.answer := OutputText(run.outputsDict);
            frames := StreamFinalize([Data(WorkflowFinishedResponse(ctx.taskId, id, run))]);
          } else {
            var data := ErrorToStreamResponseData(ctx.taskId, message.id, HandleError(RunFailedError(run.error)));
            frames := [Data(ErrorRecord(data))];
            stop := true;
          }
        case _ =>
          assert false;
      }
    }

    /** The branches of `StreamDispatch` for the message events. */
    method StreamMessageEvent(e: Event) returns (frames: seq<Frame>, stop: bool)
      requires !IsRunEvent(e)
      requires message.id == ctx.messageId
      modifies this, task, message, moderation
      ensures moderation == null || moderation == old(moderation)
      ensures var s := StreamStep(ctx, old(Snapshot()), e);
              Snapshot() == s.w && frames == s.frames && stop == s.stop
    {
      stop := false;
      match e {
        case RetrieverResources(rs) =>
          task.metadata := task.metadata.(retrieverResources := Some(rs));
          frames := [];
        case AnnotationReply(_, a) =>
          if a.Some? {
            var x := a.value;
            task.metadata := task.metadata.(annotationReply :=
              Some(AnnotationInfo(x.id, x.accountId, x.accountName.GetOr("Dify user"))));
            task.answer := x.content;
          }
          frames := [];
        case MessageFileEvent(_, f) =>
          var extension := FileExtension(f.url);
          var url := ctx.sign(f.id, extension);
          frames := [Data(MessageFileResponse(ctx.conversationId, f.id, f.fileType, BelongsTo(f), url))];
        case TextChunk(text) =>
          if text.None? {
            frames := [];
          } else {
            frames := StreamTextChunk(text.value);
          }
        case MessageReplace(text) =>
          frames := [Data(ReplaceRecord(ctx, text))];
        case Ping =>
          frames := [PingFrame];
        case Unknown =>
          frames := [];
        case _ =>
          assert false;
      }
    }

    /** `_process_stream_response`: the frames yielded over the events `listen()` delivers. */
    method ProcessStream(events: seq<Event>) returns (frames: seq<Frame>)
      requires message.id == ctx.messageId
      modifies this, task, message, moderation
      ensures RunOut(Snapshot(), frames) == RunStream(ctx, old(Snapshot()), events)
    {
      frames := [];
      var i := 0;
      while i < |events|
        invariant 0 <= i <= |events|
        invariant moderation == null || moderation == old(moderation)
        invariant var r := RunStream(ctx, Snapshot(), events[i..]);
                  RunStream(ctx, old(Snapshot()), events) == RunOut(r.w, frames + r.frames)
      {
        var out, stop := StreamDispatch(events[i]);
        assert events[i..][0] == events[i] && events[i..][1..] == events[i + 1..];
        frames := frames + out;
        if stop {
          return;
        }
        i := i + 1;
      }
    }

    /** Finalisation in blocking mode: the handler is stopped and moderates, but is kept. */
    method BlockingFinalize() returns (out: BlockingOutcome)
      requires message.id == ctx.messageId
      modifies this, task, message, moderation
      ensures moderation == old(moderation)
      ensures var s := BlockingFinish(ctx, old(Snapshot()));
              Snapshot() == s.w && s.done == Some(out)
    {
      if moderation != null {
        moderation.StopThread();
        var answer := moderation.ModerationCompletion(task.answer);
        task.answer := answer;
      }
      SaveMessage();
      var md := FinalResponseMetadata();
      var response := BlockingResponse(ctx.taskId, message.id, message.id, ctx.conversationId, ctx.mode,
                                       task.answer, md.GetOr(NoResponseMetadata), ctx.messageCreatedAt);
      out := Response(response);
    }

    /** One iteration of `_process_blocking_response`; `None` means keep listening. */
    method BlockingDispatch(e: Event) returns (done: Option<BlockingOutcome>)
      requires message.id == ctx.messageId
      modifies this, task, message, moderation
      ensures moderation == old(moderation)
      ensures var s := BlockingStep(ctx, old(Snapshot()), e);
              Snapshot() == s.w && done == s.done
    {
      done := None;
      match e {
        case ErrorEvent(c) =>
          done := Some(Raised(HandleError(c)));
        case RetrieverResources(rs) =>
          task.metadata := task.metadata.(retrieverResources := Some(rs));
        case AnnotationReply(_, a) =>
          if a.Some? {
            var x := a.value;
            task.metadata := task.metadata.(annotationReply :=
              Some(AnnotationInfo(x.id, x.accountId, x.accountName.GetOr("Dify user"))));
            task.answer := x.content;
          }
        case WorkflowStarted(id, _) =>
          task.workflowRunId := Some(id);
        case NodeFinished(_, n) =>
          if n.status == NodeSucceeded && n.nodeType == LlmNode {
            task.metadata := task.metadata.(usage := Some(n.usage.GetOr(EmptyUsage)));
          }
        case StopEvent(_) =>
          var out := BlockingFinalize();
          done := Some(out);
        case WorkflowFinished(_, run) =>
          if run.status == Succeeded {
            task.answer := OutputText(run.outputs);
            var out := BlockingFinalize();
            done := Some(out);
          } else {
            done := Some(Raised(HandleError(RunFailedError(run.error))));
          }
        case _ =>
      }
    }

    /** `_process_blocking_response` over the events `listen()` delivers. */
    method ProcessBlocking(events: seq<Event>) returns (out: BlockingOutcome)
      requires message.id == ctx.messageId
      modifies this, task, message, moderation
      ensures (Snapshot(), out) == RunBlocking(ctx, old(Snapshot()), events)
    {
      var i := 0;
      while i < |events|
        invariant 0 <= i <= |events|
        invariant moderation == old(moderation)
        invariant RunBlocking(ctx, old(Snapshot()), events) == RunBlocking(ctx, Snapshot(), events[i..])
      {
        var done := BlockingDispatch(events[i]);
        assert events[i..][0] == events[i] && events[i..][1..] == events[i + 1..];
        if done.Some? {
          out := done.value;
          return;
        }
        i := i + 1;
      }
      out := Exhausted;
    }
  }
}
