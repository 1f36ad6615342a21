/**
 * The task metadata bag and `_get_response_metadata`, the projection of it that a caller of a
 * given invocation channel is allowed to see.
 */
module ResponseMeta {
  import opened Common

  /** Where the request came from (`InvokeFrom`). */
  datatype InvokeFrom = ServiceApi | WebApp | Explore | Debugger

  /** The debugger and the direct service API see internal metadata. */
  predicate Privileged(f: InvokeFrom) {
    f == Debugger || f == ServiceApi
  }

  /** A retriever resource; `others` holds its remaining keys (dataset id, hit count, ...). */
  datatype Resource = Resource(segmentId: string, position: int, documentName: string,
                               score: string, content: string, others: map<string, string>)

  /** The reduced public shape of a resource. */
  datatype PublicResource = PublicResource(segmentId: string, position: int, documentName: string,
                                           score: string, content: string)

  /** `{'id': ..., 'account': {'id': ..., 'name': ...}}` of an annotation reply. */
  datatype AnnotationInfo = AnnotationInfo(id: string, accountId: string, accountName: string)

  /**
   * The `usage` dict of an LLM node's outputs: `{}` when the node reported none, otherwise the
   * token counts and (decimal, kept opaque) prices that `LLMUsage` validates.
   */
  datatype UsageInfo =
    | EmptyUsage
    | Usage(promptTokens: int, promptUnitPrice: string, promptPriceUnit: string,
            completionTokens: int, completionUnitPrice: string, completionPriceUnit: string,
            totalPrice: string, currency: string)

  /** `TaskState.metadata`: a dict whose only keys are these three; `None` is an absent key. */
  datatype TaskMetadata = TaskMetadata(retrieverResources: Option<seq<Resource>>,
                                       annotationReply: Option<AnnotationInfo>,
                                       usage: Option<UsageInfo>)
  {
    /** Python truthiness of the dict: true when no key is present. */
    predicate IsEmpty() {
      retrieverResources.None? && annotationReply.None? && usage.None?
    }
  }

  const EmptyMetadata: TaskMetadata := TaskMetadata(None, None, None)

  /** The `retriever_resources` a response carries: verbatim, or projected. */
  datatype Retrieved = Full(resources: seq<Resource>) | Projected(items: seq<PublicResource>)

  /** The metadata of a response; `None` is an absent key, so all-`None` is `{}`. */
  datatype ResponseMetadata = ResponseMetadata(retrieverResources: Option<Retrieved>,
                                               annotationReply: Option<AnnotationInfo>,
                                               usage: Option<UsageInfo>)

  const NoResponseMetadata: ResponseMetadata := ResponseMetadata(None, None, None)

  function Project(r: Resource): PublicResource {
    PublicResource(r.segmentId, r.position, r.documentName, r.score, r.content)
  }

  function ProjectAll(rs: seq<Resource>): seq<PublicResource> {
    seq(|rs|, i requires 0 <= i < |rs| => Project(rs[i]))
  }

  /**
   * `_get_response_metadata` as the code is evidently meant to behave: resources in full or
   * projected, annotation reply and usage only when privileged, and usage only when the task
   * collected one.
   */
  function ResponseMetadataFor(md: TaskMetadata, from: InvokeFrom): ResponseMetadata {
    var resources :=
      match md.retrieverResources
      case None => None
      case Some(rs) => Some(if Privileged(from) then Full(rs) else Projected(ProjectAll(rs)));
    var annotation := if Privileged(from) then md.annotationReply else None;
    var usage := if Privileged(from) then md.usage else None;
    ResponseMetadata(resources, annotation, usage)
  }

  /**
   * `_get_response_metadata` as written: a privileged caller reads `metadata['usage']` without
   * checking the key, so a missing usage raises `KeyError` (modelled as `None`).
   */
  function ResponseMetadataAsWritten(md: TaskMetadata, from: InvokeFrom): Option<ResponseMetadata> {
    var resources :=
      match md.retrieverResources
      case None => None
      case Some(rs) => Some(if Privileged(from) then Full(rs) else Projected(ProjectAll(rs)));
    var annotation := if md.annotationReply.Some? && Privileged(from) then md.annotationReply else None;
    if Privileged(from) then
      match md.usage
      case None => None
      case Some(u) => Some(ResponseMetadata(resources, annotation, Some(u)))
    else
      Some(ResponseMetadata(resources, annotation, None))
  }

  /** The loop of `_get_response_metadata`, projecting each resource in order. */
  method GetResponseMetadata(md: TaskMetadata, from: InvokeFrom) returns (r: ResponseMetadata)
    ensures r == ResponseMetadataFor(md, from)
  {
    var resources: Option<Retrieved> := None;
    if md.retrieverResources.Some? {
      var rs := md.retrieverResources.value;
      if Privileged(from) {
        resources := Some(Full(rs));
      } else {
        var items: seq<PublicResource> := [];
        var i := 0;
        while i < |rs|
          invariant 0 <= i <= |rs|
          invariant items == ProjectAll(rs[..i])
        {
          items := items + [Project(rs[i])];
          i := i + 1;
        }
        assert rs[..i] == rs;
        resources := Some(Projected(items));
      }
    }
    var annotation: Option<AnnotationInfo> := None;
    if md.annotationReply.Some? && Privileged(from) {
      annotation := md.annotationReply;
    }
    var usage: Option<UsageInfo> := None;
    if Privileged(from) {
      usage := md.usage;
    }
    r := ResponseMetadata(resources, annotation, usage);
  }

  /** Privileged callers see resources verbatim, the annotation reply and the usage. */
  lemma PrivilegedSeesEverything(md: TaskMetadata, from: InvokeFrom)
    requires Privileged(from)
    ensures ResponseMetadataFor(md, from) ==
            ResponseMetadata(match md.retrieverResources case None => None case Some(rs) => Some(Full(rs)),
                             md.annotationReply, md.usage)
  {
  }

  /**
   * Other callers get a same-length, same-order list of five-field projections and neither the
   * annotation reply nor the usage.
   */
  lemma {:induction false} UnprivilegedSeesProjection(md: TaskMetadata, from: InvokeFrom)
    requires !Privileged(from)
    ensures var r := ResponseMetadataFor(md, from);
            r.annotationReply.None? && r.usage.None? &&
            (r.retrieverResources.Some? <==> md.retrieverResources.Some?) &&
            (md.retrieverResources.Some? ==>
               var rs := md.retrieverResources.value;
               r.retrieverResources.value.Projected? &&
               |r.retrieverResources.value.items| == |rs| &&
               forall i :: 0 <= i < |rs| ==>
                 var p := r.retrieverResources.value.items[i];
                 p.segmentId == rs[i].segmentId && p.position == rs[i].position &&
                 p.documentName == rs[i].documentName && p.score == rs[i].score &&
                 p.content == rs[i].content)
  {
  }

  /** Where the code as written does not raise, it agrees with the corrected projection. */
  lemma AsWrittenAgreesWhenDefined(md: TaskMetadata, from: InvokeFrom)
    ensures ResponseMetadataAsWritten(md, from).None? <==> Privileged(from) && md.usage.None?
    ensures ResponseMetadataAsWritten(md, from).Some? ==>
              ResponseMetadataAsWritten(md, from).value == ResponseMetadataFor(md, from)
  {
  }

  /**
   * A privileged caller whose task collected retriever resources but no usage makes the code
   * as written raise `KeyError`, although the metadata is non-empty and so is rendered.
   */
  lemma AsWrittenKeyError()
    ensures !TaskMetadata(Some([]), None, None).IsEmpty()
    ensures ResponseMetadataAsWritten(TaskMetadata(Some([]), None, None), Debugger).None?
    ensures ResponseMetadataFor(TaskMetadata(Some([]), None, None), Debugger) ==
            ResponseMetadata(Some(Full([])), None, None)
  {
  }
}
