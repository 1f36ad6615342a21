/**
 * The response records the pipeline emits, the streaming wire format (`_yield_response` and the
 * ping literal), `_handle_chunk`, and the extension rule for signed file URLs.
 */
module Frames {
  import opened Common
  import opened Errors
  import opened ResponseMeta
  import opened Entities

  /** One streamed response dict. */
  datatype Record =
    | WorkflowStartedResponse(taskId: string, workflowRunId: string, run: WorkflowRun)
    | NodeStartedResponse(taskId: string, workflowRunId: string, node: NodeExecution)
    | NodeFinishedResponse(taskId: string, workflowRunId: string, node: NodeExecution)
    | WorkflowFinishedResponse(taskId: string, workflowRunId: string, run: WorkflowRun)
    | MessageReplaceResponse(taskId: string, messageId: string, conversationId: string,
                             answer: string, createdAt: int)
    | MessageEndResponse(taskId: string, id: string, messageId: string, conversationId: string,
                         metadata: Option<ResponseMetadata>)
    | MessageFileResponse(conversationId: string, id: string, fileType: string,
                          belongsTo: string, url: string)
    | MessageResponse(id: string, taskId: string, messageId: string, conversationId: string,
                      answer: string, createdAt: int)
    | ErrorRecord(error: ErrorResponse)

  /** The `event` key of each record. */
  function EventName(r: Record): string {
    match r
    case WorkflowStartedResponse(_, _, _) => "workflow_started"
    case NodeStartedResponse(_, _, _) => "node_started"
    case NodeFinishedResponse(_, _, _) => "node_finished"
    case WorkflowFinishedResponse(_, _, _) => "workflow_finished"
    case MessageReplaceResponse(_, _, _, _, _) => "message_replace"
    case MessageEndResponse(_, _, _, _, _) => "message_end"
    case MessageFileResponse(_, _, _, _, _) => "message_file"
    case MessageResponse(_, _, _, _, _, _) => "message"
    case ErrorRecord(_) => "error"
  }

  /** The single response of blocking mode; `metadata` is `{}` unless the task collected some. */
  datatype BlockingResponse = BlockingResponse(taskId: string, id: string, messageId: string,
                                               conversationId: string, mode: string,
                                               answer: string, metadata: ResponseMetadata,
                                               createdAt: int)

  /** A streamed frame: a JSON record, or the raw keep-alive. */
  datatype Frame = Data(record: Record) | PingFrame

  const DataPrefix: string := "data: "
  const FrameEnd: string := "\n\n"
  const PingLiteral: string := "event: ping\n\n"

  /** `_yield_response`; `encode` stands for `json.dumps`. */
  function YieldResponse(encode: Record -> string, r: Record): string {
    DataPrefix + encode(r) + FrameEnd
  }

  function Render(encode: Record -> string, f: Frame): string {
    match f
    case Data(r) => YieldResponse(encode, r)
    case PingFrame => PingLiteral
  }

  /** Reads the JSON text back out of a data frame; `None` for anything else. */
  function ParseFrame(s: string): Option<string> {
    if |s| >= |DataPrefix| + |FrameEnd| && s[..|DataPrefix|] == DataPrefix && s[|s| - |FrameEnd|..] == FrameEnd
    then Some(s[|DataPrefix|..|s| - |FrameEnd|])
    else None
  }

  /** Every data frame gives back exactly the encoded record; the ping frame is not a data frame. */
  lemma FrameRoundTrip(encode: Record -> string, f: Frame)
    ensures ParseFrame(Render(encode, f)) == if f.Data? then Some(encode(f.record)) else None
  {
    var s := Render(encode, f);
    if f.Data? {
      var body := encode(f.record);
      assert s == DataPrefix + body + FrameEnd;
      assert s[..|DataPrefix|] == DataPrefix;
      assert s[|s| - |FrameEnd|..] == FrameEnd;
      assert s[|DataPrefix|..|s| - |FrameEnd|] == body;
    } else {
      assert s[..|DataPrefix|] != DataPrefix by { assert s[0] == 'e'; }
    }
  }

  /** `_handle_chunk`: the `message` record for one chunk of text. */
  function HandleChunk(ctx: Context, text: string): (r: Record)
    ensures EventName(r) == "message" && r.answer == text
    ensures r.id == ctx.messageId && r.messageId == ctx.messageId && r.taskId == ctx.taskId
  {
    MessageResponse(ctx.messageId, ctx.taskId, ctx.messageId, ctx.conversationId, text, ctx.messageCreatedAt)
  }

  /** Index of the last `'.'` of `s`. */
  function LastDot(s: string): (k: Option<nat>)
    ensures k.None? <==> '.' !in s
    ensures k.Some? ==> k.value < |s| && s[k.value] == '.' &&
                        forall j :: k.value < j < |s| ==> s[j] != '.'
  {
    if |s| == 0 then None
    else if s[|s| - 1] == '.' then Some(|s| - 1)
    else
      var k := LastDot(s[..|s| - 1]);
      assert forall c :: c in s <==> c in s[..|s| - 1] || c == s[|s| - 1];
      k
  }

  /**
   * The extension of a message file URL: `'.'` and the text after the last dot, or `'.bin'`
   * when there is no dot or that extension is longer than ten characters.
   */
  function FileExtension(url: string): (ext: string)
    ensures ext == ".bin" || (0 < |ext| <= 10 && ext[0] == '.' && '.' !in ext[1..] &&
                               |ext| <= |url| && url[|url| - |ext|..] == ext)
  {
    match LastDot(url)
    case None => ".bin"
    case Some(k) =>
      var ext := "." + url[k + 1..];
      assert ext[1..] == url[k + 1..] && ext == url[k..];
      if |ext| > 10 then ".bin" else ext
  }

  /** The extension is fixed by where the last dot is, independently of how it is found. */
  lemma ExtensionFromLastDot(url: string, k: nat)
    requires k < |url| && url[k] == '.' && forall j :: k < j < |url| ==> url[j] != '.'
    ensures FileExtension(url) == if |url| - k > 10 then ".bin" else url[k..]
  {
    var d := LastDot(url);
    assert d.Some?;
    assert d.value == k;
    assert "." + url[k + 1..] == url[k..];
  }

  /** A URL without a dot signs as `.bin`. */
  lemma ExtensionWithoutDot(url: string)
    requires '.' !in url
    ensures FileExtension(url) == ".bin"
  {
  }

  /** `belongs_to or 'user'`. */
  function BelongsTo(f: MessageFileRow): string {
    match f.belongsTo
    case Some(b) => if b == "" then "user" else b
    case None => "user"
  }
}
