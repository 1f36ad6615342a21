/**
 * Error causes carried by error events, the `_handle_error` normalisation and the
 * `_error_to_stream_response_data` envelope of the advanced-chat task pipeline.
 *
 * Python's class hierarchy is modelled explicitly: every exception value has a class, and
 * `isinstance` walks the (single-inheritance) chain of base classes.
 */
module Errors {
  import opened Common

  /** The exception classes the pipeline distinguishes; `Derived` is any other subclass. */
  datatype ExcClass =
    | PlainException                  // the built-in `Exception`
    | ValueError
    | InvokeError
    | InvokeAuthorizationError
    | InvokeConnectionError
    | InvokeServerUnavailableError
    | InvokeRateLimitError
    | InvokeBadRequestError
    | ProviderTokenNotInitError
    | QuotaExceededError
    | ModelCurrentlyNotSupportError
    | Derived(name: string, base: ExcClass)

  /** Distance from `Exception` in the class tree. */
  function Depth(c: ExcClass): nat {
    match c
    case PlainException => 0
    case ValueError => 1
    case InvokeError => 1
    case ProviderTokenNotInitError => 1
    case QuotaExceededError => 1
    case ModelCurrentlyNotSupportError => 1
    case Derived(_, b) => Depth(b) + 1
    case _ => 2
  }

  /** The direct base class; `Exception` is the root of the modelled tree. */
  function Base(c: ExcClass): (b: Option<ExcClass>)
    ensures b.Some? ==> Depth(b.value) < Depth(c)
    ensures b.None? <==> c == PlainException
  {
    match c
    case PlainException => None
    case ValueError => Some(PlainException)
    case InvokeError => Some(PlainException)
    case ProviderTokenNotInitError => Some(PlainException)
    case QuotaExceededError => Some(PlainException)
    case ModelCurrentlyNotSupportError => Some(PlainException)
    case Derived(_, b) => Some(b)
    case _ => Some(InvokeError)
  }

  /** Python's `isinstance(e, k)` for an exception whose class is `c`. */
  predicate IsInstance(c: ExcClass, k: ExcClass)
    decreases Depth(c)
  {
    c == k || (Base(c).Some? && IsInstance(Base(c).value, k))
  }

  /** With single inheritance, two classes an exception is an instance of lie on one chain. */
  lemma {:induction false} InstanceChain(c: ExcClass, a: ExcClass, b: ExcClass)
    requires IsInstance(c, a) && IsInstance(c, b)
    ensures IsInstance(a, b) || IsInstance(b, a)
    decreases Depth(c)
  {
    if c == a {
    } else if c == b {
    } else {
      InstanceChain(Base(c).value, a, b);
    }
  }

  /** `isinstance` respects subclassing: an instance of a subclass is an instance of its bases. */
  lemma {:induction false} InstanceTransitive(c: ExcClass, a: ExcClass, b: ExcClass)
    requires IsInstance(c, a) && IsInstance(a, b)
    ensures IsInstance(c, b)
    decreases Depth(c)
  {
    if c != a {
      InstanceTransitive(Base(c).value, a, b);
    }
  }

  /**
   * The `description` attribute: absent (`getattr` falls back to its default), present but
   * `None`, or a string.
   */
  datatype Description = NoAttribute | NoneValue | Text(s: string)

  /** An exception value: its class, its `description` attribute and `str(e)`. */
  datatype Exc = Exc(cls: ExcClass, description: Description, text: string)

  const AuthorizationMessage: string := "Incorrect API key provided"

  /** `InvokeAuthorizationError(msg)`: `InvokeError.__init__` stores `msg` as description. */
  function AuthorizationFailure(): Exc {
    Exc(InvokeAuthorizationError, Text(AuthorizationMessage), AuthorizationMessage)
  }

  /** `Exception(msg)`: a plain exception without a description attribute. */
  function WrapException(msg: string): Exc {
    Exc(PlainException, NoAttribute, msg)
  }

  /** True when `_handle_error` passes the cause through unchanged. */
  predicate PassesThrough(c: ExcClass) {
    IsInstance(c, InvokeError) || IsInstance(c, ValueError)
  }

  /**
   * `_handle_error`: authorisation failures get a fixed message, invocation and validation
   * errors pass through, anything else is wrapped in a plain `Exception` built from its
   * description when that is not `None`, else from `str(e)`.
   */
  function HandleError(e: Exc): (r: Exc)
    ensures PassesThrough(r.cls) || r.cls == PlainException
    ensures IsInstance(e.cls, InvokeAuthorizationError) ==> r == AuthorizationFailure()
    ensures !IsInstance(e.cls, InvokeAuthorizationError) && PassesThrough(e.cls) ==> r == e
    ensures !PassesThrough(e.cls) ==>
              r.cls == PlainException && r.description == NoAttribute &&
              r.text == (if e.description.Text? then e.description.s else e.text)
  {
    if IsInstance(e.cls, InvokeAuthorizationError) then
      assert IsInstance(InvokeAuthorizationError, InvokeError);
      InstanceTransitive(e.cls, InvokeAuthorizationError, InvokeError);
      AuthorizationFailure()
    else if PassesThrough(e.cls) then
      e
    else
      WrapException(if e.description.Text? then e.description.s else e.text)
  }

  /** The error event the pipeline synthesises for a workflow run that did not succeed. */
  function RunFailedError(error: Option<string>): Exc {
    var msg := "Run failed: " + (match error case Some(s) => s case None => "None");
    Exc(ValueError, NoAttribute, msg)
  }

  /** One value of the `error_responses` table; `message` is absent for most entries. */
  datatype Entry = Entry(code: string, message: Option<string>, status: int)

  const QuotaMessage: string :=
    "Your quota for Dify Hosted Model Provider has been exhausted. "
    + "Please go to Settings -> Model Provider to complete your own provider credentials."
  const InternalMessage: string := "Internal Server Error, please contact support."

  /** The `error_responses` table in its insertion order. */
  const ErrorTable: seq<(ExcClass, Entry)> := [
    (ValueError, Entry("invalid_param", None, 400)),
    (ProviderTokenNotInitError, Entry("provider_not_initialize", None, 400)),
    (QuotaExceededError, Entry("provider_quota_exceeded", Some(QuotaMessage), 400)),
    (ModelCurrentlyNotSupportError, Entry("model_currently_not_support", None, 400)),
    (InvokeError, Entry("completion_request_error", None, 400))
  ]

  /** The entry of the last row, in table order, whose class `c` is an instance of. */
  function LastMatch(table: seq<(ExcClass, Entry)>, c: ExcClass): Option<Entry> {
    if |table| == 0 then None
    else if IsInstance(c, table[|table| - 1].0) then Some(table[|table| - 1].1)
    else LastMatch(table[..|table| - 1], c)
  }

  lemma {:induction false} LastMatchIsLast(table: seq<(ExcClass, Entry)>, c: ExcClass)
    ensures LastMatch(table, c).None? <==> forall i :: 0 <= i < |table| ==> !IsInstance(c, table[i].0)
    ensures LastMatch(table, c).Some? ==>
              exists i :: 0 <= i < |table| && IsInstance(c, table[i].0) &&
                          LastMatch(table, c).value == table[i].1 &&
                          forall j :: i < j < |table| ==> !IsInstance(c, table[j].0)
  {
    if |table| > 0 {
      var n := |table| - 1;
      var front := table[..n];
      LastMatchIsLast(front, c);
      assert forall i :: 0 <= i < n ==> front[i] == table[i];
      if !IsInstance(c, table[n].0) && LastMatch(front, c).Some? {
        var i :| 0 <= i < n && IsInstance(c, front[i].0) && LastMatch(front, c).value == front[i].1 &&
                 forall j :: i < j < n ==> !IsInstance(c, front[j].0);
        assert IsInstance(c, table[i].0) && forall j :: i < j < |table| ==> !IsInstance(c, table[j].0);
      }
    }
  }

  /** The loop of `_error_to_stream_response_data`: keep the last row whose class matches. */
  method MatchErrorEntry(table: seq<(ExcClass, Entry)>, e: Exc) returns (data: Option<Entry>)
    ensures data == LastMatch(table, e.cls)
  {
    data := None;
    var i := 0;
    while i < |table|
      invariant 0 <= i <= |table|
      invariant data == LastMatch(table[..i], e.cls)
    {
      assert table[..i + 1][..i] == table[..i];
      if IsInstance(e.cls, table[i].0) {
        data := Some(table[i].1);
      }
      i := i + 1;
    }
    assert table[..i] == table;
  }

  /** `getattr(e, 'description', str(e))`: a present `None` description gives JSON null. */
  function DescriptionOrText(e: Exc): Option<string> {
    match e.description
    case NoAttribute => Some(e.text)
    case NoneValue => None
    case Text(s) => Some(s)
  }

  /** An error envelope: `event` is always `'error'`. */
  datatype ErrorResponse = ErrorResponse(taskId: string, messageId: string, code: string,
                                         message: Option<string>, status: int)

  /**
   * `_error_to_stream_response_data`: the last matching table entry, whose message is filled
   * in by `setdefault` only when the entry has none; otherwise the internal-error envelope.
   */
  function ErrorEnvelope(taskId: string, messageId: string, e: Exc): (r: ErrorResponse)
    ensures r.taskId == taskId && r.messageId == messageId
  {
    match LastMatch(ErrorTable, e.cls)
    case Some(d) =>
      ErrorResponse(taskId, messageId, d.code, if d.message.Some? then d.message else DescriptionOrText(e), d.status)
    case None =>
      ErrorResponse(taskId, messageId, "internal_server_error", Some(InternalMessage), 500)
  }

  method ErrorToStreamResponseData(taskId: string, messageId: string, e: Exc) returns (r: ErrorResponse)
    ensures r == ErrorEnvelope(taskId, messageId, e)
  {
    var data := MatchErrorEntry(ErrorTable, e);
    match data {
      case Some(d) =>
        var message := if d.message.Some? then d.message else DescriptionOrText(e);
        r := ErrorResponse(taskId, messageId, d.code, message, d.status);
      case None =>
        r := ErrorResponse(taskId, messageId, "internal_server_error", Some(InternalMessage), 500);
    }
  }

  /** The envelope's code is the code of the last table row the cause is an instance of. */
  lemma EnvelopeUsesLastMatchingRow(taskId: string, messageId: string, e: Exc, i: nat)
    requires i < |ErrorTable| && IsInstance(e.cls, ErrorTable[i].0)
    requires forall j :: i < j < |ErrorTable| ==> !IsInstance(e.cls, ErrorTable[j].0)
    ensures ErrorEnvelope(taskId, messageId, e).code == ErrorTable[i].1.code
    ensures ErrorEnvelope(taskId, messageId, e).status == ErrorTable[i].1.status
    ensures ErrorEnvelope(taskId, messageId, e).message ==
            if ErrorTable[i].1.message.Some? then ErrorTable[i].1.message else DescriptionOrText(e)
  {
    LastMatchIsLast(ErrorTable, e.cls);
    var k :| 0 <= k < |ErrorTable| && IsInstance(e.cls, ErrorTable[k].0) &&
             LastMatch(ErrorTable, e.cls).value == ErrorTable[k].1 &&
             forall j :: k < j < |ErrorTable| ==> !IsInstance(e.cls, ErrorTable[j].0);
    assert k == i;
  }

  /** A cause of none of the table's classes yields the generic internal-error envelope. */
  lemma UnmatchedIsInternal(taskId: string, messageId: string, e: Exc)
    requires forall i :: 0 <= i < |ErrorTable| ==> !IsInstance(e.cls, ErrorTable[i].0)
    ensures ErrorEnvelope(taskId, messageId, e) ==
            ErrorResponse(taskId, messageId, "internal_server_error", Some(InternalMessage), 500)
  {
    LastMatchIsLast(ErrorTable, e.cls);
  }

  /** The quota row keeps its fixed message: `setdefault` never overwrites it. */
  lemma QuotaKeepsFixedMessage(taskId: string, messageId: string, e: Exc)
    requires IsInstance(e.cls, QuotaExceededError)
    ensures ErrorEnvelope(taskId, messageId, e) ==
            ErrorResponse(taskId, messageId, "provider_quota_exceeded", Some(QuotaMessage), 400)
  {
    if IsInstance(e.cls, ModelCurrentlyNotSupportError) {
      InstanceChain(e.cls, QuotaExceededError, ModelCurrentlyNotSupportError);
    }
    if IsInstance(e.cls, InvokeError) {
      InstanceChain(e.cls, QuotaExceededError, InvokeError);
    }
    EnvelopeUsesLastMatchingRow(taskId, messageId, e, 2);
  }

  /**
   * After `_handle_error`, only three codes can reach the client: the provider, quota and
   * model rows are unreachable because those causes are re-wrapped as plain exceptions.
   */
  lemma HandledErrorCodes(taskId: string, messageId: string, e: Exc)
    ensures ErrorEnvelope(taskId, messageId, HandleError(e)).code in
              {"invalid_param", "completion_request_error", "internal_server_error"}
  {
    var h := HandleError(e);
    if IsInstance(h.cls, InvokeError) {
      EnvelopeUsesLastMatchingRow(taskId, messageId, h, 4);
    } else if IsInstance(h.cls, ValueError) {
      ValidationEnvelope(taskId, messageId, h);
    } else {
      assert h.cls == PlainException;
      UnmatchedIsInternal(taskId, messageId, h);
    }
  }

  /** A validation error that is no invocation error matches the first row only. */
  lemma ValidationEnvelope(taskId: string, messageId: string, e: Exc)
    requires IsInstance(e.cls, ValueError) && !IsInstance(e.cls, InvokeError)
    ensures ErrorEnvelope(taskId, messageId, e).code == "invalid_param"
  {
    forall j | 0 < j < |ErrorTable| ensures !IsInstance(e.cls, ErrorTable[j].0) {
      if IsInstance(e.cls, ErrorTable[j].0) {
        InstanceChain(e.cls, ValueError, ErrorTable[j].0);
      }
    }
    EnvelopeUsesLastMatchingRow(taskId, messageId, e, 0);
  }

  /** An authorisation failure reaches the client as an invocation error with the fixed message. */
  lemma AuthorizationEnvelope(taskId: string, messageId: string, e: Exc)
    requires IsInstance(e.cls, InvokeAuthorizationError)
    ensures ErrorEnvelope(taskId, messageId, HandleError(e)) ==
            ErrorResponse(taskId, messageId, "completion_request_error", Some(AuthorizationMessage), 400)
  {
    assert IsInstance(InvokeAuthorizationError, InvokeError);
    EnvelopeUsesLastMatchingRow(taskId, messageId, AuthorizationFailure(), 4);
  }

  /** A failed workflow run surfaces as `invalid_param` carrying `Run failed: <error>`. */
  lemma RunFailedEnvelope(taskId: string, messageId: string, error: Option<string>)
    ensures ErrorEnvelope(taskId, messageId, HandleError(RunFailedError(error))) ==
            ErrorResponse(taskId, messageId, "invalid_param",
                          Some("Run failed: " + (match error case Some(s) => s case None => "None")), 400)
  {
    EnvelopeUsesLastMatchingRow(taskId, messageId, RunFailedError(error), 0);
  }

  /** Causes outside the invocation and validation families never leak their text. */
  lemma UnknownCauseIsInternal(taskId: string, messageId: string, e: Exc)
    requires !PassesThrough(e.cls)
    ensures ErrorEnvelope(taskId, messageId, HandleError(e)) ==
            ErrorResponse(taskId, messageId, "internal_server_error", Some(InternalMessage), 500)
  {
    UnmatchedIsInternal(taskId, messageId, HandleError(e));
  }
}
