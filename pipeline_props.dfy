/** Properties of the pipeline's two folds, stage by stage and over whole event sequences. */
module PipelineProps {
  import opened Common
  import opened Errors
  import opened ResponseMeta
  import opened Entities
  import opened Frames
  import opened PipelineSpec

  /** No event of `s` ends the streaming loop. */
  predicate NoneEndsStream(s: seq<Event>) {
    forall i :: 0 <= i < |s| ==> !EndsStream(s[i])
  }

  /** No event of `s` ends the blocking loop. */
  predicate NoneEndsBlocking(s: seq<Event>) {
    forall i :: 0 <= i < |s| ==> !IsTerminal(s[i]) && !s[i].ErrorEvent?
  }

  /** The run row read for a `WorkflowStarted` event is the row with the event's id. */
  predicate KeyConsistent(s: seq<Event>) {
    forall i :: 0 <= i < |s| && s[i].WorkflowStarted? ==> s[i].run.id == s[i].workflowRunId
  }

  function CountTerminals(s: seq<Event>): nat {
    if |s| == 0 then 0 else (if IsTerminal(s[0]) then 1 else 0) + CountTerminals(s[1..])
  }

  // ---------------------------------------------------------------------------------------
  // Streaming mode

  /** The streaming loop stops after an event exactly when that event is an error or a failed run. */
  lemma StreamStopsOnlyOnErrors(ctx: Context, w: World, e: Event)
    ensures StreamStep(ctx, w, e).stop <==> EndsStream(e)
  {
  }

  /** An ending event leaves the state as it was and emits its single error frame. */
  lemma EndingStep(ctx: Context, w: World, e: Event)
    requires EndsStream(e)
    ensures StreamStep(ctx, w, e) == StepOut(w, [EndFrame(ctx, e)], true)
  {
  }

  /** Running over events that do not end the stream, then over more, is running over both. */
  lemma StreamAppend(ctx: Context, w: World, prefix: seq<Event>, more: seq<Event>)
    requires NoneEndsStream(prefix)
    ensures var p := RunStream(ctx, w, prefix);
            var q := RunStream(ctx, p.w, more);
            RunStream(ctx, w, prefix + more) == RunOut(q.w, p.frames + q.frames)
  {
    forall v, i | 0 <= i < |prefix| ensures !StreamLoop(ctx)(v, prefix[i]).stop {
      StreamStopsOnlyOnErrors(ctx, v, prefix[i]);
    }
    FoldAppend(StreamLoop(ctx), w, prefix, more);
  }

  /** A loop over steps that do not stop it, then over more, is one loop over both. */
  lemma {:induction false} FoldAppend(step: (World, Event) -> StepOut, w: World, prefix: seq<Event>, more: seq<Event>)
    requires forall v, i :: 0 <= i < |prefix| ==> !step(v, prefix[i]).stop
    ensures var p := Fold(step, w, prefix);
            var q := Fold(step, p.w, more);
            Fold(step, w, prefix + more) == RunOut(q.w, p.frames + q.frames)
    decreases |prefix|
  {
    if |prefix| == 0 {
      assert prefix + more == more;
    } else {
      var s := prefix + more;
      assert s[0] == prefix[0] && s[1..] == prefix[1..] + more;
      var st := step(w, prefix[0]);
      assert forall v, i :: 0 <= i < |prefix[1..]| ==> !step(v, prefix[1..][i]).stop by {
        assert forall i :: 0 <= i < |prefix[1..]| ==> prefix[1..][i] == prefix[i + 1];
      }
      FoldAppend(step, st.w, prefix[1..], more);
      var p' := Fold(step, st.w, prefix[1..]);
      var q := Fold(step, p'.w, more);
      assert st.frames + (p'.frames + q.frames) == (st.frames + p'.frames) + q.frames;
    }
  }

  lemma NoneEndsStreamTail(s: seq<Event>)
    requires |s| > 0 && NoneEndsStream(s)
    ensures NoneEndsStream(s[1..])
  {
    forall i | 0 <= i < |s[1..]| ensures !EndsStream(s[1..][i]) {
      assert s[1..][i] == s[i + 1];
    }
  }

  /**
   * An error event, or a finished run that did not succeed, emits exactly one error frame and
   * ends the stream: later events are never read, and the state (so the committed rows and the
   * moderation handler) is the one before that event, so `_save_message` is not reached.
   */
  lemma StreamEndsAtError(ctx: Context, w: World, prefix: seq<Event>, e: Event, rest: seq<Event>)
    requires NoneEndsStream(prefix) && EndsStream(e)
    ensures var p := RunStream(ctx, w, prefix);
            RunStream(ctx, w, prefix + [e] + rest) == RunOut(p.w, p.frames + [EndFrame(ctx, e)])
  {
    assert prefix + [e] + rest == prefix + ([e] + rest);
    StreamAppend(ctx, w, prefix, [e] + rest);
    EndingStep(ctx, RunStream(ctx, w, prefix).w, e);
  }

  /**
   * The streaming loop does not stop after `message_end`: over events that never end the
   * stream, it finalises and commits the message once per terminal event, keeping earlier rows.
   */
  lemma {:induction false} StreamCommitsPerTerminal(ctx: Context, w: World, events: seq<Event>)
    requires NoneEndsStream(events)
    ensures var c := RunStream(ctx, w, events).w.commits;
            |c| == |w.commits| + CountTerminals(events) && c[..|w.commits|] == w.commits
    decreases |events|
  {
    if |events| > 0 {
      var st := StreamStep(ctx, w, events[0]);
      StreamStopsOnlyOnErrors(ctx, w, events[0]);
      assert NoneEndsStream(events[1..]) by {
        forall i | 0 <= i < |events[1..]| ensures !EndsStream(events[1..][i]) {
          assert events[1..][i] == events[i + 1];
        }
      }
      assert |st.w.commits| == |w.commits| + (if IsTerminal(events[0]) then 1 else 0);
      assert st.w.commits[..|w.commits|] == w.commits;
      StreamCommitsPerTerminal(ctx, st.w, events[1..]);
    }
  }

  /** A `None` chunk is skipped: no state change and no frame. */
  lemma NoneChunkSkipped(ctx: Context, w: World)
    ensures StreamStep(ctx, w, TextChunk(None)) == StepOut(w, [], false)
  {
  }

  /**
   * Without a direct-output verdict, the answer grows by exactly the chunk and one `message`
   * frame carrying that chunk is emitted; metadata, rows and queue are untouched.
   */
  lemma ChunkAppendsExactly(ctx: Context, w: World, text: string)
    requires w.mod.None? || !w.mod.value.rule.verdict(w.mod.value.buffer)
    ensures var s := StreamStep(ctx, w, TextChunk(Some(text)));
            s.w.task == w.task.(answer := w.task.answer + text) &&
            s.frames == [Data(HandleChunk(ctx, text))] && !s.stop &&
            s.w.commits == w.commits && s.w.published == w.published &&
            s.w.mod.Some? == w.mod.Some?
  {
  }

  /**
   * With a direct-output verdict, the answer becomes the handler's final output, a text chunk
   * with it and a moderation stop are published back, and no frame is emitted.
   */
  lemma DirectOutputRepublishes(ctx: Context, w: World, text: string)
    requires w.mod.Some? && w.mod.value.rule.verdict(w.mod.value.buffer)
    ensures var s := StreamStep(ctx, w, TextChunk(Some(text)));
            var answer := w.mod.value.rule.substitute(w.mod.value.buffer);
            s.w.task.answer == answer && s.frames == [] && !s.stop &&
            s.w.published == w.published + [TextChunk(Some(answer)), StopEvent(OutputModerationStop)] &&
            s.w.task.metadata == w.task.metadata && s.w.commits == w.commits
  {
  }

  /** `MessageReplace` emits its text and leaves the stored answer as it was. */
  lemma ReplaceKeepsAnswer(ctx: Context, w: World, text: string)
    ensures var s := StreamStep(ctx, w, MessageReplace(text));
            s.w == w && |s.frames| == 1 && s.frames[0].Data? &&
            EventName(s.frames[0].record) == "message_replace" && s.frames[0].record.answer == text
  {
  }

  /** Every streamed error envelope is an `error` record carrying task and message id. */
  lemma ErrorFrameShape(ctx: Context, cause: Exc)
    ensures var f := ErrorFrame(ctx, cause);
            f.Data? && EventName(f.record) == "error" &&
            f.record.error.taskId == ctx.taskId && f.record.error.messageId == ctx.messageId
  {
  }

  /** At a terminal event with a live handler, the redacted answer is both emitted and saved. */
  lemma StreamFinishRedacts(ctx: Context, w: World, pre: seq<Frame>)
    requires w.mod.Some?
    ensures var s := StreamFinish(ctx, w, pre);
            var answer := w.mod.value.rule.redact(w.task.answer);
            s.w.mod.None? && s.w.task.answer == answer &&
            s.w.commits == w.commits + [s.w.message] && s.w.message.answer == answer &&
            s.frames == pre + [Data(ReplaceRecord(ctx, answer)), Data(MessageEnd(ctx, s.w.task))]
  {
  }

  // ---------------------------------------------------------------------------------------
  // Shared state updates

  /** Only a succeeded LLM node writes the usage, and it overwrites what was there. */
  lemma UsageOnlyFromSucceededLlm(t: TaskValue, n: NodeExecution)
    ensures var t2 := ApplyNodeFinished(t, n);
            t2.answer == t.answer && t2.workflowRunId == t.workflowRunId &&
            t2.metadata.retrieverResources == t.metadata.retrieverResources &&
            t2.metadata.annotationReply == t.metadata.annotationReply &&
            t2.metadata.usage == (if n.status == NodeSucceeded && n.nodeType == LlmNode
                                  then Some(n.usage.GetOr(EmptyUsage)) else t.metadata.usage)
  {
  }

  /** A found annotation replaces the answer whatever it was; a missing one changes nothing. */
  lemma AnnotationOverwrites(t: TaskValue, a: Option<Annotation>)
    ensures a.None? ==> ApplyAnnotation(t, a) == t
    ensures a.Some? ==> ApplyAnnotation(t, a).answer == a.value.content &&
                        ApplyAnnotation(t, a).metadata.annotationReply ==
                          Some(AnnotationInfo(a.value.id, a.value.accountId, a.value.accountName.GetOr("Dify user")))
    ensures ApplyAnnotation(t, a).metadata.usage == t.metadata.usage
    ensures ApplyAnnotation(t, a).metadata.retrieverResources == t.metadata.retrieverResources
    ensures ApplyAnnotation(t, a).workflowRunId == t.workflowRunId
  {
  }

  /**
   * `_save_message` always writes answer and run id, and copies token and price fields only
   * when the metadata holds a truthy usage; otherwise those fields keep their old values.
   */
  lemma SaveCopiesUsageOnlyWhenTruthy(m: MessageValue, t: TaskValue)
    ensures var r := SavedMessage(m, t);
            r.answer == t.answer && r.workflowRunId == t.workflowRunId &&
            (if t.metadata.usage.Some? && t.metadata.usage.value.Usage? then
               var u := t.metadata.usage.value;
               r.messageTokens == u.promptTokens && r.answerTokens == u.completionTokens &&
               r.messageUnitPrice == u.promptUnitPrice && r.answerUnitPrice == u.completionUnitPrice &&
               r.messagePriceUnit == u.promptPriceUnit && r.answerPriceUnit == u.completionPriceUnit &&
               r.totalPrice == u.totalPrice && r.currency == u.currency
             else
               r == m.(answer := t.answer, workflowRunId := t.workflowRunId))
  {
  }

  // ---------------------------------------------------------------------------------------
  // Blocking mode

  lemma {:induction false} BlockingAppend(ctx: Context, w: World, prefix: seq<Event>, more: seq<Event>)
    requires NoneEndsBlocking(prefix)
    ensures RunBlocking(ctx, w, prefix).1 == Exhausted
    ensures RunBlocking(ctx, w, prefix + more) == RunBlocking(ctx, RunBlocking(ctx, w, prefix).0, more)
    decreases |prefix|
  {
    if |prefix| == 0 {
      assert prefix + more == more;
    } else {
      var s := prefix + more;
      assert s[0] == prefix[0] && s[1..] == prefix[1..] + more;
      var st := BlockingStep(ctx, w, prefix[0]);
      assert st.done.None?;
      BlockingAppend(ctx, st.w, prefix[1..], more);
    }
  }

  /**
   * The first terminal event decides the blocking result: later events are never read, a stop
   * or a successful run gives exactly one response, a failed run raises.
   */
  lemma BlockingDecidedAtFirstTerminal(ctx: Context, w: World, prefix: seq<Event>, e: Event, rest: seq<Event>)
    requires NoneEndsBlocking(prefix) && IsTerminal(e)
    ensures var p := RunBlocking(ctx, w, prefix).0;
            var s := BlockingStep(ctx, p, e);
            s.done.Some? && RunBlocking(ctx, w, prefix + [e] + rest) == (s.w, s.done.value)
    ensures RunBlocking(ctx, w, prefix + [e] + rest).1.Response? <==>
              (e.StopEvent? || e.run.status == Succeeded)
  {
    assert prefix + [e] + rest == prefix + ([e] + rest);
    BlockingAppend(ctx, w, prefix, [e] + rest);
    assert ([e] + rest)[0] == e;
  }

  /** Blocking mode commits the message at most once, and exactly when it responds. */
  lemma {:induction false} BlockingCommitsAtMostOnce(ctx: Context, w: World, events: seq<Event>)
    ensures var r := RunBlocking(ctx, w, events);
            (r.1.Response? ==> r.0.commits == w.commits + [r.0.message]) &&
            (!r.1.Response? ==> r.0.commits == w.commits)
    decreases |events|
  {
    if |events| > 0 {
      var st := BlockingStep(ctx, w, events[0]);
      if st.done.None? {
        BlockingCommitsAtMostOnce(ctx, st.w, events[1..]);
      }
    }
  }

  /** Chunks, node starts, files, replacements, pings and unknown events are ignored. */
  lemma BlockingIgnores(ctx: Context, w: World, e: Event)
    requires e.TextChunk? || e.NodeStarted? || e.MessageFileEvent? || e.MessageReplace? || e.Ping? || e.Unknown?
    ensures BlockingStep(ctx, w, e) == BlockStepOut(w, None)
  {
  }

  /**
   * A successful run answers with the `outputs` attribute's `'text'` (or `''`), passed through moderation when a
   * handler is present; metadata is `{}` unless the task collected some.
   */
  lemma BlockingSuccessResponse(ctx: Context, w: World, id: string, run: WorkflowRun)
    requires run.status == Succeeded
    ensures var s := BlockingStep(ctx, w, WorkflowFinished(id, run));
            s.done.Some? && s.done.value.Response? &&
            s.done.value.response.answer ==
              (if w.mod.Some? then w.mod.value.rule.redact(OutputText(run.outputs)) else OutputText(run.outputs)) &&
            s.done.value.response.metadata ==
              (if w.task.metadata.IsEmpty() then NoResponseMetadata
               else ResponseMetadataFor(w.task.metadata, ctx.invokeFrom)) &&
            s.w.commits == w.commits + [s.w.message] && s.w.message.answer == s.done.value.response.answer
  {
  }

  // ---------------------------------------------------------------------------------------
  // The two modes side by side

  /**
   * Before the first terminal event both modes have collected the same metadata and run id,
   * hold a handler in the same cases, and have committed nothing.
   */
  lemma {:induction false} ModesAgreeBeforeTerminal(ctx: Context, w: World, prefix: seq<Event>)
    requires NoneEndsBlocking(prefix) && KeyConsistent(prefix)
    ensures var st := RunStream(ctx, w, prefix).w;
            var bl := RunBlocking(ctx, w, prefix);
            bl.1 == Exhausted &&
            st.task.metadata == bl.0.task.metadata && st.task.workflowRunId == bl.0.task.workflowRunId &&
            st.mod.Some? == bl.0.mod.Some? && (st.mod.Some? ==> st.mod.value.rule == bl.0.mod.value.rule) &&
            st.commits == bl.0.commits && st.message == bl.0.message
    decreases |prefix|
  {
    if |prefix| > 0 {
      assert NoneEndsBlocking(prefix[1..]) && KeyConsistent(prefix[1..]) by {
        forall i | 0 <= i < |prefix[1..]| ensures prefix[1..][i] == prefix[i + 1] { }
      }
      var ss := StreamStep(ctx, w, prefix[0]);
      var bs := BlockingStep(ctx, w, prefix[0]);
      ModesAgreeFrom(ctx, ss.w, bs.w, prefix[1..]);
    } else {
      ModesAgreeFrom(ctx, w, w, prefix);
    }
  }

  /** Two worlds that agree on what both modes share keep agreeing over pre-terminal events. */
  ghost predicate Agree(a: World, b: World) {
    a.task.metadata == b.task.metadata && a.task.workflowRunId == b.task.workflowRunId &&
    a.mod.Some? == b.mod.Some? && (a.mod.Some? ==> a.mod.value.rule == b.mod.value.rule) &&
    a.commits == b.commits && a.message == b.message
  }

  lemma {:induction false} ModesAgreeFrom(ctx: Context, s: World, b: World, events: seq<Event>)
    requires NoneEndsBlocking(events) && KeyConsistent(events)
    ensures Agree(s, b) ==> Agree(RunStream(ctx, s, events).w, RunBlocking(ctx, b, events).0)
    ensures RunBlocking(ctx, b, events).1 == Exhausted
    decreases |events|
  {
    if |events| > 0 {
      assert NoneEndsBlocking(events[1..]) && KeyConsistent(events[1..]) by {
        forall i | 0 <= i < |events[1..]| ensures events[1..][i] == events[i + 1] { }
      }
      var ss := StreamStep(ctx, s, events[0]);
      var bs := BlockingStep(ctx, b, events[0]);
      assert !ss.stop && bs.done.None?;
      assert Agree(s, b) ==> Agree(ss.w, bs.w);
      ModesAgreeFrom(ctx, ss.w, bs.w, events[1..]);
    }
  }

  /**
   * When the first terminal event is a successful run whose `outputs` and `outputs_dict` agree,
   * both modes commit the same message row, blocking answers with the committed answer, and
   * blocking's metadata is the one streaming sends with `message_end`.
   */
  lemma ModesAgreeOnSuccessfulRun(ctx: Context, w: World, prefix: seq<Event>, id: string, run: WorkflowRun)
    requires NoneEndsBlocking(prefix) && KeyConsistent(prefix) && run.status == Succeeded
    requires run.outputs == run.outputsDict
    ensures var st := RunStream(ctx, w, prefix + [WorkflowFinished(id, run)]);
            var bl := RunBlocking(ctx, w, prefix + [WorkflowFinished(id, run)]);
            bl.1.Response? && st.w.commits == bl.0.commits && |st.w.commits| == |w.commits| + 1 &&
            |st.frames| > 0 &&
            bl.1.response.answer == st.w.commits[|w.commits|].answer &&
            st.frames[|st.frames| - 1] == Data(MessageEnd(ctx, st.w.task)) &&
            bl.1.response.metadata == FinalMetadata(ctx, st.w.task).GetOr(NoResponseMetadata)
  {
    var e := WorkflowFinished(id, run);
    assert NoneEndsStream(prefix) by {
      forall i | 0 <= i < |prefix| ensures !EndsStream(prefix[i]) { assert !IsTerminal(prefix[i]); }
    }
    ModesAgreeBeforeTerminal(ctx, w, prefix);
    StreamAppend(ctx, w, prefix, [e]);
    BlockingAppend(ctx, w, prefix, [e]);
    BlockingCommitsAtMostOnce(ctx, w, prefix);
    var p := RunStream(ctx, w, prefix);
    assert p.w.commits == w.commits;
    var last := StreamStep(ctx, p.w, e);
    assert StreamLoop(ctx)(p.w, e) == last && !last.stop && [e][1..] == [];
    assert Fold(StreamLoop(ctx), last.w, []) == RunOut(last.w, []);
    assert RunStream(ctx, p.w, [e]) == RunOut(last.w, last.frames + []);
    assert |last.frames| > 0;
  }

  /**
   * On a successful run without a moderation handler, blocking answers with the text of the
   * `outputs` attribute while streaming commits the text of `outputs_dict`.
   */
  lemma ModesReadDifferentOutputs(ctx: Context, w: World, id: string, run: WorkflowRun)
    requires w.mod.None? && run.status == Succeeded
    ensures var st := RunStream(ctx, w, [WorkflowFinished(id, run)]).w;
            var bl := RunBlocking(ctx, w, [WorkflowFinished(id, run)]);
            |st.commits| == |w.commits| + 1 && st.commits[|w.commits|].answer == OutputText(run.outputsDict) &&
            bl.1.Response? && bl.1.response.answer == OutputText(run.outputs)
  {
    var e := WorkflowFinished(id, run);
    var last := StreamStep(ctx, w, e);
    assert StreamLoop(ctx)(w, e) == last && !last.stop && [e][1..] == [];
    assert Fold(StreamLoop(ctx), last.w, []) == RunOut(last.w, []);
    assert RunStream(ctx, w, [e]).w == last.w;
  }

  /**
   * The modes do not always agree: on a stop, streaming saves the streamed chunks while
   * blocking, which ignores chunks, saves the empty answer.
   */
  lemma ModesDisagreeOnStop(ctx: Context, m: MessageValue)
    ensures var w := World(InitialTask, None, m, [], []);
            var events := [TextChunk(Some("Hi")), StopEvent(UserManual)];
            RunStream(ctx, w, events).w.commits[0].answer == "Hi" &&
            RunBlocking(ctx, w, events).1.Response? && RunBlocking(ctx, w, events).1.response.answer == ""
  {
    var w := World(InitialTask, None, m, [], []);
    var events := [TextChunk(Some("Hi")), StopEvent(UserManual)];
    assert events[1..] == [StopEvent(UserManual)];
    var s1 := StreamStep(ctx, w, events[0]);
    assert s1.w.task.answer == "Hi";
    assert RunBlocking(ctx, w, events) == RunBlocking(ctx, w, events[1..]);
  }
}
