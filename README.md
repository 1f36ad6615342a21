# Dify: advanced-chat task pipeline, dataset config validator, prompt token budget

This project models three pieces of the dify backend in Dafny and proves properties of them.

**The advanced-chat generate-task pipeline** (`AdvancedChatAppGenerateTaskPipeline`). It consumes the ordered events of a generation task from the app queue and folds them into a `TaskState`: the answer, a metadata bag and the workflow run id. It then answers in one of two forms:
- in blocking mode, a single response dict, produced at the first stop or workflow-finished event;
- in streaming mode, a sequence of `data: <json>\n\n` frames and `event: ping\n\n` keep-alives.

Around the loops sit:
- the error normalisation (`_handle_error`);
- the error envelope built from the `error_responses` table;
- the privilege-gated response metadata;
- the message persistence (`_save_message`), which copies usage only when it is present;
- the extension rule for signed file URLs.

The model has two layers:
- **Pure step functions.** `PipelineSpec.StreamStep` and `PipelineSpec.BlockingStep`, and their folds `RunStream` and `RunBlocking` over a finite event sequence. The properties are proved about these.
- **The imperative pipeline.** Module `Pipeline` has classes for the task state, the output moderation handler, the message row and the pipeline itself. Its two dispatch loops are proved to compute exactly those folds.

**`DatasetValidator`.** It normalises an app model config dict in place and validates it. This covers:
- the `agent_mode` defaults;
- the old-style dataset tools, checked under a router strategy;
- the `dataset_configs` defaults;
- the retrieval and reranking checks;
- the dataset query variable check for completion apps.

Config dicts are values of `Json.Dict`: a map of entries, plus the keys in insertion order, because only the first key of a tool depends on order. `DatasetSpec` states each stage as a function from the dict before the call to the dict after it, together with the outcome. The outcome is one of:
- success;
- a `ValueError` with its message;
- one of the other Python exceptions the code lets escape.

`DatasetValidator` holds the in-place methods, each proved to match its stage. `DatasetProps` proves the defaulting, the error conditions and idempotence.

**`PromptTransform`.** It computes the token budget left for chat history, `_calculate_rest_token`: a loop over the parameter rules picks `max_tokens`, and a clamp follows. It also appends the history to the prompt list in place, and builds the keyword arguments for a history request.

Collaborators become inputs:
- The rows the pipeline reads back from the database ride on the events as payload: the workflow run, the node execution, the message file and the annotation.
- These are function-valued parameters:
  - the moderation handler's decisions;
  - `json.dumps`;
  - `ToolFileManager.sign_file`;
  - `uuid.UUID`;
  - `DatasetService.get_dataset`;
  - the token counter;
  - the memory.

Consequences of the code that the proofs make explicit:
- **Authorisation failures.** `_handle_error` re-raises them as `InvokeAuthorizationError('Incorrect API key provided')`. That class is an `InvokeError`, and the `InvokeError` row comes last in the `error_responses` table, so the client sees `completion_request_error` with status 400 (`Errors.AuthorizationEnvelope`).
- **Failed workflow runs.** Both loops turn a failed run into `ValueError('Run failed: <error>')`. That passes through `_handle_error` and matches only the `ValueError` row, so the client sees `invalid_param` (`Errors.RunFailedEnvelope`).
- **Provider-not-initialised, quota and model-unsupported causes.** `_handle_error` re-wraps anything that is not an `InvokeError` or `ValueError` into a plain `Exception`. So the `provider_not_initialize`, `provider_quota_exceeded` and `model_currently_not_support` rows of the table are never reached. After `_handle_error`, only `invalid_param`, `completion_request_error` and `internal_server_error` can reach a streamed client (`Errors.HandledErrorCodes`).
- **The two modes on a stop.** Streaming appends every chunk to the answer and saves it. Blocking ignores chunks, so on a stop it saves the empty answer (`PipelineProps.ModesDisagreeOnStop`).
- **The two modes on a successful run.** Blocking reads the run's `outputs` attribute (line 127), while streaming reads `outputs_dict` (line 241) (`PipelineProps.ModesReadDifferentOutputs`). Only when the two hold the same mapping do the modes commit the same row (`PipelineProps.ModesAgreeOnSuccessfulRun`).
- **The streaming loop after `message_end`.** The loop does not `break` after a terminal event, so a later terminal event finalises and commits again (`PipelineProps.StreamCommitsPerTerminal`).

## Model

Source paths are relative to the repository root.

| member | source | states |
|---|---|---|
| Errors.HandleError | api/core/app/apps/advanced_chat/generate_task_pipeline.py:471-485 | authorisation failures become `InvokeAuthorizationError('Incorrect API key provided')`; `InvokeError`/`ValueError` causes pass through unchanged; anything else becomes a plain `Exception` whose text is the description when it is not `None`, else `str(e)` |
| Errors.InstanceTransitive | api/core/app/apps/advanced_chat/generate_task_pipeline.py:480-482 | `isinstance` respects subclassing, which is what lets an authorisation failure count as an `InvokeError` |
| Errors.InstanceChain | api/core/app/apps/advanced_chat/generate_task_pipeline.py:508-510 | with single inheritance, two table classes an error is an instance of are related, so at most one chain of rows can match |
| Errors.LastMatchIsLast | api/core/app/apps/advanced_chat/generate_task_pipeline.py:507-510 | the table lookup finds nothing exactly when no row's class matches; otherwise it finds a matching row after which no row matches |
| Errors.MatchErrorEntry | api/core/app/apps/advanced_chat/generate_task_pipeline.py:507-510 | the loop over `error_responses` keeps the last matching entry, in table order |
| Errors.ErrorEnvelope | api/core/app/apps/advanced_chat/generate_task_pipeline.py:522-527 | every envelope carries the task id and the message id |
| Errors.ErrorToStreamResponseData | api/core/app/apps/advanced_chat/generate_task_pipeline.py:487-527 | the method builds exactly the envelope of the last matching entry, with `setdefault` filling in the message, or the internal-error envelope |
| Errors.EnvelopeUsesLastMatchingRow | api/core/app/apps/advanced_chat/generate_task_pipeline.py:508-513 | code and status are those of the last matching row; the message is the row's fixed message if it has one, else `getattr(e, 'description', str(e))` |
| Errors.UnmatchedIsInternal | api/core/app/apps/advanced_chat/generate_task_pipeline.py:514-520 | an unmatched cause gives `internal_server_error` / 500 / the generic message |
| Errors.QuotaKeepsFixedMessage | api/core/app/apps/advanced_chat/generate_task_pipeline.py:496-513 | a quota error keeps the row's fixed message, because `setdefault` does not overwrite it |
| Errors.HandledErrorCodes | api/core/app/apps/advanced_chat/generate_task_pipeline.py:480-513 | after `_handle_error` only `invalid_param`, `completion_request_error` or `internal_server_error` can be sent |
| Errors.AuthorizationEnvelope | api/core/app/apps/advanced_chat/generate_task_pipeline.py:480-481 | an authorisation failure is sent as `completion_request_error` / 400 with the fixed message |
| Errors.RunFailedEnvelope | api/core/app/apps/advanced_chat/generate_task_pipeline.py:244-245 | a failed run is sent as `invalid_param` / 400 with `Run failed: <error>` |
| Errors.UnknownCauseIsInternal | api/core/app/apps/advanced_chat/generate_task_pipeline.py:484-485 | a cause outside the invocation and validation families never leaks its text: it becomes the internal-error envelope |
| ResponseMeta.GetResponseMetadata | api/core/app/apps/advanced_chat/generate_task_pipeline.py:529-559 | the method, with its projection loop, computes the corrected metadata projection |
| ResponseMeta.PrivilegedSeesEverything | api/core/app/apps/advanced_chat/generate_task_pipeline.py:537-557 | DEBUGGER and SERVICE_API callers get the retriever resources verbatim, the annotation reply and the usage |
| ResponseMeta.UnprivilegedSeesProjection | api/core/app/apps/advanced_chat/generate_task_pipeline.py:540-549 | other callers get a same-length, same-order list of five-field projections, and no annotation reply or usage |
| ResponseMeta.AsWrittenAgreesWhenDefined | api/core/app/apps/advanced_chat/generate_task_pipeline.py:555-557 | the code as written raises exactly when the caller is privileged and there is no usage; otherwise it agrees with the corrected projection |
| ResponseMeta.AsWrittenKeyError | api/core/app/apps/advanced_chat/generate_task_pipeline.py:556-557 | witness: non-empty metadata with resources but no usage makes a debugger request raise, where the corrected projection answers |
| Frames.FrameRoundTrip | api/core/app/apps/advanced_chat/generate_task_pipeline.py:561-567 | a data frame is `data: ` + encoding + blank line, and parsing it gives back exactly the encoding; the ping literal is no data frame |
| Frames.HandleChunk | api/core/app/apps/advanced_chat/generate_task_pipeline.py:453-469 | the chunk record is a `message` event carrying the text, the message id (as `id` and `message_id`) and the task id |
| Frames.LastDot | api/core/app/apps/advanced_chat/generate_task_pipeline.py:328-329 | finds nothing exactly when the URL has no dot; otherwise finds a dot with no dot after it |
| Frames.FileExtension | api/core/app/apps/advanced_chat/generate_task_pipeline.py:328-333 | the extension is `.bin`, or a suffix of the URL of at most 10 characters that starts with its only dot |
| Frames.ExtensionFromLastDot | api/core/app/apps/advanced_chat/generate_task_pipeline.py:328-331 | given the last dot, the extension is the text from it, or `.bin` when that is longer than 10 characters |
| Frames.ExtensionWithoutDot | api/core/app/apps/advanced_chat/generate_task_pipeline.py:332-333 | a URL with no dot gets `.bin` |
| PipelineProps.StreamStopsOnlyOnErrors | api/core/app/apps/advanced_chat/generate_task_pipeline.py:171-174 | the streaming loop breaks after an event exactly when it is an error or a failed run |
| PipelineProps.EndingStep | api/core/app/apps/advanced_chat/generate_task_pipeline.py:238-247 | an ending event emits exactly its one error frame and changes no state |
| PipelineProps.StreamAppend | api/core/app/apps/advanced_chat/generate_task_pipeline.py:168-169 | running over a prefix that never ends the stream and then over the rest is the same as running over both |
| PipelineProps.StreamEndsAtError | api/core/app/apps/advanced_chat/generate_task_pipeline.py:171-174 | at the first error event or failed run there is one error frame and the loop stops; later events are never read; nothing is saved or committed |
| PipelineProps.StreamCommitsPerTerminal | api/core/app/apps/advanced_chat/generate_task_pipeline.py:291-305 | without errors, the message is saved and committed once per terminal event, since the loop does not break after `message_end` |
| PipelineProps.NoneChunkSkipped | api/core/app/apps/advanced_chat/generate_task_pipeline.py:349-351 | a `None` chunk changes no state and emits nothing |
| PipelineProps.ChunkAppendsExactly | api/core/app/apps/advanced_chat/generate_task_pipeline.py:369-373 | without a direct-output verdict the answer grows by exactly the chunk, and one `message` frame with that chunk is emitted |
| PipelineProps.DirectOutputRepublishes | api/core/app/apps/advanced_chat/generate_task_pipeline.py:353-367 | with a direct-output verdict the answer becomes the final output, which is re-published as a text chunk followed by a moderation stop, with no frame |
| PipelineProps.ReplaceKeepsAnswer | api/core/app/apps/advanced_chat/generate_task_pipeline.py:374-384 | `MessageReplace` emits one `message_replace` frame with its text and changes no state |
| PipelineProps.ErrorFrameShape | api/core/app/apps/advanced_chat/generate_task_pipeline.py:522-527 | every error frame is an `error` record with the task id and the message id |
| PipelineProps.StreamFinishRedacts | api/core/app/apps/advanced_chat/generate_task_pipeline.py:269-305 | with a handler, the moderated answer is both emitted in `message_replace` and saved; the handler is released; `message_end` follows |
| PipelineProps.UsageOnlyFromSucceededLlm | api/core/app/apps/advanced_chat/generate_task_pipeline.py:207-213 | only a succeeded LLM node writes the usage, overwriting it (`{}` if the node reported none); everything else is unchanged |
| PipelineProps.AnnotationOverwrites | api/core/app/apps/advanced_chat/generate_task_pipeline.py:308-320 | a found annotation replaces the whole answer and records the reply `{id, account: {id, name or 'Dify user'}}`; usage, resources and run id are kept; a missing annotation changes nothing |
| PipelineProps.SaveCopiesUsageOnlyWhenTruthy | api/core/app/apps/advanced_chat/generate_task_pipeline.py:426-441 | answer and run id are always written; token and price fields are copied only for a truthy usage, otherwise the row keeps them |
| PipelineProps.BlockingAppend | api/core/app/apps/advanced_chat/generate_task_pipeline.py:94-95 | blocking over a non-terminal prefix returns nothing, and continuing with more events is the same as running over both |
| PipelineProps.BlockingDecidedAtFirstTerminal | api/core/app/apps/advanced_chat/generate_task_pipeline.py:123-159 | the first terminal event decides the result, later events are never read, and there is a response exactly for a stop or a successful run |
| PipelineProps.BlockingCommitsAtMostOnce | api/core/app/apps/advanced_chat/generate_task_pipeline.py:141-159 | blocking mode commits the message exactly once when it responds, and never otherwise |
| PipelineProps.BlockingIgnores | api/core/app/apps/advanced_chat/generate_task_pipeline.py:160-161 | chunks, node starts, files, replacements, pings and unknown events change nothing in blocking mode |
| PipelineProps.BlockingSuccessResponse | api/core/app/apps/advanced_chat/generate_task_pipeline.py:124-159 | a successful run answers with the `outputs` attribute's `'text'` or `''`, moderated when a handler is present; metadata is `{}` unless the task collected some; the answer is committed |
| PipelineProps.ModesAgreeBeforeTerminal | api/core/app/apps/advanced_chat/generate_task_pipeline.py:99-122 | before the first terminal event both modes hold the same metadata, run id and handler presence, and have committed nothing |
| PipelineProps.ModesAgreeFrom | api/core/app/apps/advanced_chat/generate_task_pipeline.py:99-240 | states that agree on what both modes share keep agreeing over pre-terminal events: the blocking loop's branches at 99-122 and the streaming loop's at 171-240 |
| PipelineProps.ModesAgreeOnSuccessfulRun | api/core/app/apps/advanced_chat/generate_task_pipeline.py:237-305 | on a successful run whose `outputs` and `outputs_dict` hold the same mapping, both modes commit the same row; blocking's answer is the committed one; blocking's metadata is the one `message_end` carries |
| PipelineProps.ModesReadDifferentOutputs | api/core/app/apps/advanced_chat/generate_task_pipeline.py:123-128 | without a handler, on a successful run blocking answers with the text of `outputs` while streaming commits the text of `outputs_dict` (lines 237-242) |
| PipelineProps.ModesDisagreeOnStop | api/core/app/apps/advanced_chat/generate_task_pipeline.py:123-142 | witness: on chunk "Hi" then stop, streaming saves "Hi" and blocking answers "" |
| Pipeline.TaskState.constructor | api/core/app/apps/advanced_chat/generate_task_pipeline.py:43-50 | a new task state has an empty answer, empty metadata and no run id |
| Pipeline.OutputModeration.AppendNewToken | api/core/app/apps/advanced_chat/generate_task_pipeline.py:368-369 | the token is appended to the handler's buffer and nothing else changes |
| Pipeline.OutputModeration.StopThread | api/core/app/apps/advanced_chat/generate_task_pipeline.py:270-271 | the handler is marked stopped and nothing else changes |
| Pipeline.OutputModeration.ModerationCompletion | api/core/app/apps/advanced_chat/generate_task_pipeline.py:273-276 | the result is the rule's redaction of the completion |
| Pipeline.MessageRecord.SetResult | api/core/app/apps/advanced_chat/generate_task_pipeline.py:426-428 | the row's answer and run id are overwritten and its other fields are kept |
| Pipeline.MessageRecord.CopyUsageFrom | api/core/app/apps/advanced_chat/generate_task_pipeline.py:430-441 | the token and price fields of a truthy usage are copied; an empty usage copies nothing |
| Pipeline.TaskPipeline.constructor | api/core/app/apps/advanced_chat/generate_task_pipeline.py:69-77 | a pipeline starts from the initial task state, with the given message and moderation handler, nothing committed and nothing published |
| Pipeline.TaskPipeline.SaveMessage | api/core/app/apps/advanced_chat/generate_task_pipeline.py:419-443 | the message row becomes the saved message of the task state and is appended to the commits |
| Pipeline.TaskPipeline.FinalResponseMetadata | api/core/app/apps/advanced_chat/generate_task_pipeline.py:302-303 | the response has metadata only when the task's metadata is non-empty, and then it is the gated projection |
| Pipeline.TaskPipeline.StreamFinalize | api/core/app/apps/advanced_chat/generate_task_pipeline.py:269-305 | the streaming finalisation leaves the state and emits the frames of the specification, and releases the handler |
| Pipeline.TaskPipeline.StreamTextChunk | api/core/app/apps/advanced_chat/generate_task_pipeline.py:348-373 | one text chunk updates the state and frames as the streaming step says |
| Pipeline.TaskPipeline.StreamDispatch | api/core/app/apps/advanced_chat/generate_task_pipeline.py:171-388 | one event of the streaming loop yields the state, frames and stop flag of the streaming step |
| Pipeline.TaskPipeline.ProcessStream | api/core/app/apps/advanced_chat/generate_task_pipeline.py:163-388 | the streaming loop leaves the state and emits the frames of the fold over the events |
| Pipeline.TaskPipeline.BlockingFinalize | api/core/app/apps/advanced_chat/generate_task_pipeline.py:132-159 | the blocking finalisation moderates, saves and answers as the specification says, keeping the stopped handler |
| Pipeline.TaskPipeline.BlockingDispatch | api/core/app/apps/advanced_chat/generate_task_pipeline.py:97-161 | one event of the blocking loop yields the state and decision of the blocking step |
| Pipeline.TaskPipeline.ProcessBlocking | api/core/app/apps/advanced_chat/generate_task_pipeline.py:89-161 | the blocking loop leaves the state and returns the outcome of the fold over the events |
| DatasetSpec.IsDatasetExists | api/core/apps/config_validators/dataset.py:130-141 | true exactly when the dataset is found and belongs to the tenant |
| DatasetSpec.ToolsFrom | api/core/apps/config_validators/dataset.py:94-117 | the tools loop keeps the list's length and never rewrites a tool it has already passed |
| DatasetSpec.LegacySpec | api/core/apps/config_validators/dataset.py:55-128 | the legacy extraction writes `agent_mode` and no other key |
| DatasetSpec.ToolsSpec | api/core/apps/config_validators/dataset.py:81-126 | the `tools`/`strategy` part writes `agent_mode` and no other key |
| DatasetSpec.StrategySpec | api/core/apps/config_validators/dataset.py:92-126 | only `agent_mode` is written; under a strategy other than `router` and `react_router` the tools are not inspected and the stage passes with the config unchanged |
| DatasetSpec.LegacyQueryCheck | api/core/apps/config_validators/dataset.py:119-126 | the legacy query variable check writes nothing and either passes or raises the query-variable error |
| DatasetSpec.ValidateSpec | api/core/apps/config_validators/dataset.py:10-53 | validation writes only `agent_mode` and `dataset_configs` |
| DatasetSpec.DatasetConfigsSpec | api/core/apps/config_validators/dataset.py:22-51 | the `dataset_configs` part writes `dataset_configs` and no other key |
| DatasetSpec.RetrievalSpec | api/core/apps/config_validators/dataset.py:35-51 | the retrieval checks write nothing |
| DatasetSpec.QueryCheck | api/core/apps/config_validators/dataset.py:44-51 | the final check writes nothing and either passes or raises the query-variable error |
| DatasetValidator.ConfigDict.Put | api/core/apps/config_validators/dataset.py:23-24 | `config[k] = v` |
| DatasetValidator.ConfigDict.PutIn | api/core/apps/config_validators/dataset.py:75-76 | `config[o][k] = v` on the dict stored under `o` |
| DatasetValidator.ProcessTools | api/core/apps/config_validators/dataset.py:92-117 | the in-place loop with its `has_datasets` flag computes the tools loop of the specification |
| DatasetValidator.ExtractDatasetConfigForLegacyCompatibility | api/core/apps/config_validators/dataset.py:55-128 | the method leaves the dict and reports the outcome of the legacy extraction |
| DatasetValidator.NormalizeTools | api/core/apps/config_validators/dataset.py:81-90 | the method leaves the dict and the outcome of the `tools`/`strategy` part |
| DatasetValidator.CheckDatasetTools | api/core/apps/config_validators/dataset.py:92-126 | the method leaves the dict and the outcome of the tools loop and the legacy query check |
| DatasetValidator.ValidateAndSetDefaults | api/core/apps/config_validators/dataset.py:10-53 | the method leaves the dict and outcome of validation, and returns the key list `agent_mode`, `dataset_configs`, `dataset_query_variable` |
| DatasetValidator.CheckRetrievalModel | api/core/apps/config_validators/dataset.py:35-51 | the method changes nothing and reports the outcome of the retrieval and query checks |
| DatasetProps.DatasetToolAccepted | api/core/apps/config_validators/dataset.py:96-117 | a dataset tool passes exactly when its `enabled` is a bool after defaulting and its `id` is a UUID string naming a dataset of the tenant |
| DatasetProps.DatasetToolRejected | api/core/apps/config_validators/dataset.py:103-115 | each rejection has its own message, in check order: non-bool `enabled`, no `id`, non-UUID `id`, unknown dataset |
| DatasetProps.DatasetToolEnabledDefault | api/core/apps/config_validators/dataset.py:98-101 | a missing or falsy `enabled` is written back into the tool item as `False`, and nothing else in the tool changes |
| DatasetProps.OtherToolsUntouched | api/core/apps/config_validators/dataset.py:95-96 | a tool whose first key is not `dataset` passes untouched |
| DatasetProps.ToolsFromEachTool | api/core/apps/config_validators/dataset.py:94-117 | the loop passes iff every tool passes, writes each tool's normalised form, sets `has_datasets` iff some tool is a dataset tool, and otherwise raises the first failure |
| DatasetProps.ToolStepIdempotent | api/core/apps/config_validators/dataset.py:100-101 | a normalised tool is a fixed point of its own check |
| DatasetProps.ToolsFromIdempotent | api/core/apps/config_validators/dataset.py:94-117 | the tools loop applied to its own output changes nothing |
| DatasetProps.LegacyQueryVariableRequired | api/core/apps/config_validators/dataset.py:119-126 | after the tools pass, the query-variable error is raised iff a dataset tool exists, `enabled` is `True`, the app is a completion app and `dataset_query_variable` is falsy |
| DatasetProps.MissingAgentModeDefaults | api/core/apps/config_validators/dataset.py:65-90 | a missing or falsy `agent_mode` becomes `{enabled: False, tools: [], strategy: router}` and passes |
| DatasetProps.AgentModeMustBeObject | api/core/apps/config_validators/dataset.py:71-72 | a truthy non-dict `agent_mode` is rejected with its message before anything is written |
| DatasetProps.EnabledMustBeBool | api/core/apps/config_validators/dataset.py:75-79 | a truthy non-bool `enabled` is rejected with its message |
| DatasetProps.ToolsMustBeList | api/core/apps/config_validators/dataset.py:82-86 | a truthy non-list `tools` is rejected with its message |
| DatasetProps.AgentModeFieldDefaults | api/core/apps/config_validators/dataset.py:74-117 | for a non-empty `agent_mode` dict that passes, a falsy `enabled` becomes `False`, a falsy `strategy` becomes `router` and a falsy `tools` becomes `[]`; truthy values are kept, and under a router strategy the tools are the tools loop's output over them |
| DatasetProps.NonRouterSkipsTools | api/core/apps/config_validators/dataset.py:74-126 | with a truthy strategy other than `router` and `react_router`, a dict `agent_mode` whose `enabled` and `tools` pass their type checks passes whatever its tools hold, and its tools are kept or defaulted to `[]` |
| DatasetProps.LegacyNormalises | api/core/apps/config_validators/dataset.py:65-90 | after success, `agent_mode` is a dict with a bool `enabled`, a list `tools` and a truthy `strategy`, and the state has passed the tools loop and the query check |
| DatasetProps.LegacyFixedPoint | api/core/apps/config_validators/dataset.py:65-126 | a config carrying a normalised `agent_mode` passes the extraction unchanged |
| DatasetProps.DatasetConfigsFixedPoint | api/core/apps/config_validators/dataset.py:22-51 | a config carrying a validated `dataset_configs` passes that stage unchanged |
| DatasetProps.DatasetConfigsPassed | api/core/apps/config_validators/dataset.py:22-51 | after success, `dataset_configs` is a dict with a truthy `datasets` that passes the retrieval checks |
| DatasetProps.StableDatasetConfigs | api/core/apps/config_validators/dataset.py:23-30 | with no default left to write, the stage is its retrieval checks |
| DatasetProps.DatasetConfigsDefaultsStable | api/core/apps/config_validators/dataset.py:23-30 | defaults are not written again over a `dataset_configs` that already has them |
| DatasetProps.RetrievalDependsOnlyOnItsKeys | api/core/apps/config_validators/dataset.py:35-51 | the retrieval checks read only `dataset_configs` and `dataset_query_variable` |
| DatasetProps.ValidateIdempotent | api/core/apps/config_validators/dataset.py:10-128 | validating a successfully validated config passes again and changes nothing |
| DatasetProps.DatasetConfigsNeedQueryVariable | api/core/apps/config_validators/dataset.py:44-51 | in a completion app the `dataset_configs` stage only passes with a truthy `dataset_query_variable` |
| DatasetProps.CompletionNeedsQueryVariable | api/core/apps/config_validators/dataset.py:26-51 | in a completion app success always needs a truthy `dataset_query_variable`, whatever the agent mode, because `datasets` is always set |
| DatasetProps.DatasetsAlwaysSet | api/core/apps/config_validators/dataset.py:26-30 | past its defaults, `dataset_configs` is a dict with a truthy `datasets` |
| DatasetProps.MissingDatasetConfigsDefaults | api/core/apps/config_validators/dataset.py:23-51 | a missing or falsy `dataset_configs` becomes single retrieval over the router default `datasets`; it passes unless the app is a completion app without a query variable |
| DatasetProps.RerankingChecks | api/core/apps/config_validators/dataset.py:35-39 | `multiple` with no `reranking_model` raises KeyError, with a falsy one or a non-dict one raises its message; a missing `retrieval_model` raises KeyError |
| DatasetProps.MultipleHasRerankingModel | api/core/apps/config_validators/dataset.py:35-39 | a successful `multiple` retrieval always has a non-empty dict as its reranking model |
| DatasetProps.NonObjectDatasetConfigsCrashes | api/core/apps/config_validators/dataset.py:26-33 | a truthy non-dict `dataset_configs` fails with AttributeError before the `isinstance` check can report |
| PromptTransform.RuleValue | api/core/prompt/prompt_transform.py:39-40 | a matching rule's budget is the parameter under its name when that is non-zero; when it is zero or missing, the one under its template if the rule has one, else 0 |
| PromptTransform.LastMatchingRuleWins | api/core/prompt/prompt_transform.py:35-40 | `max_tokens` is set by the last rule named, or templated on, `max_tokens`, whatever earlier ones say |
| PromptTransform.NoMatchingRule | api/core/prompt/prompt_transform.py:35-40 | with no matching rule `max_tokens` stays 0 |
| PromptTransform.RestTokens | api/core/prompt/prompt_transform.py:21-45 | the budget is never negative; it is 2000 without a context size; otherwise it is 0 exactly when `max_tokens` plus the prompt fill the context, and else it adds up with them to the context size |
| PromptTransform.CalculateRestToken | api/core/prompt/prompt_transform.py:21-45 | the method with its rule loop computes that budget for the prompt's token count |
| PromptTransform.PromptMessageList.Extend | api/core/prompt/prompt_transform.py:17 | `list.extend` appends in place |
| PromptTransform.AppendChatHistories | api/core/prompt/prompt_transform.py:11-19 | the same list is returned; without memory it is unchanged; with memory the history for the remaining budget is appended after the original prefix |
| PromptTransform.GetHistoryMessagesListFromMemory | api/core/prompt/prompt_transform.py:66-71 | the memory's history messages for exactly the given token limit, passed on as `max_token_limit` |
| PromptTransform.GetHistoryMessagesFromMemory | api/core/prompt/prompt_transform.py:47-64 | the memory's history text for the arguments `HistoryKwargs` builds, passed on unchanged; an empty prefix gives the same text as no prefix |
| PromptTransform.HistoryKwargs | api/core/prompt/prompt_transform.py:52-60 | `max_token_limit` is always passed; `human_prefix` and `ai_prefix` are passed exactly when they are non-empty strings, with their values; nothing else is passed |

## Left out

- Database access is represented by event payloads and oracle parameters, not modelled. This covers `_get_workflow_run`, `_get_workflow_node_execution`, the `expire` refresh, the `Message` reload, `db.session.commit` (modelled as appending the row to `commits`), `db.session.query(MessageFile)`, `AppAnnotationService.get_annotation_by_id` and `DatasetService.get_dataset`. Rows that come back as `None` are not modelled, and neither is the `if message_file:` guard after the row has been used.
- The output moderation thread is modelled as a rule that decides from the buffered text, plus a stopped flag. Its background scanning and concurrency are left out.
- Latency (`time.perf_counter`, `provider_response_latency`) is left out because it is wall-clock time.
- `LLMUsage` construction and price arithmetic are left out because they are decimal money: usage is an opaque record that is copied.
- Integer timestamps are fixed context values. `message_was_created.send` is not modelled, and neither is `logger` output.
- Several collaborators are abstract function parameters:
  - `json.dumps` (`encode`);
  - `ToolFileManager.sign_file` (`sign`);
  - `uuid.UUID` (`isUuid`);
  - `get_num_tokens` (`numTokens`);
  - `memory.get_history_prompt_messages` and `memory.get_history_prompt_text`.
- The queue manager's `listen()` is a finite event sequence. Events published back onto the queue are recorded in `published` and are not fed back into the loop.
- The `PlanningStrategy` and `AppMode` enum values, the exception classes' bases and `InvokeFrom` come from files that are not part of this model. `ProviderTokenNotInitError`, `QuotaExceededError` and `ModelCurrentlyNotSupportError` are taken to derive directly from `Exception`.
- `Json.Dict` stands for a Python dict. A value whose key list names a key without an entry is not a dict; `DatasetSpec.ToolStep` sends it to KeyError.
- Parameter values in `PromptTransform` are integers; other value types of `model_config.parameters` are not modelled.
- `DatasetSpec.ToolStep`: a value of `enabled` or `id` that is itself a non-hashable Python object is not distinguished from other non-string ids.
- `ResponseMeta.Resource` makes `segment_id`, `position`, `document_name`, `score` and `content` mandatory fields. So the KeyError that lines 544-548 raise on a resource missing one of them is not modelled.
- `Json.Dict` with duplicate keys, or with entries that its key list does not name, is not a Python dict either. The model does not exclude such values, and nothing in it depends on them except a tool's first key.
- The `WorkflowRun` model is not part of this model. Its `outputs` attribute (read by the blocking loop at line 127) and its `outputs_dict` property (read by the streaming loop at line 241) are two independent mappings of string values. If `outputs` is a serialized column rather than a mapping, `.get` raises `AttributeError` at line 127; that case is not modelled.
- A succeeded `WorkflowRun` whose `outputs_dict` is `None` makes `outputs.get('text', '')` at line 242 raise `AttributeError` in the streaming loop; the model treats `outputs_dict` as always a mapping, so that case is not modelled.
- `Entities.NodeExecution` carries the node's usage as `Option<UsageInfo>`, standing for `outputs_dict.get('usage', {})`. A succeeded LLM node whose `outputs_dict` is `None` makes line 212 raise `AttributeError`; that case is not modelled.
- `Entities.Event.TextChunk` has one text field. The source reads a chunk event's `chunk_text` (line 349), but re-publishes `QueueTextChunkEvent(text=...)` (line 358). The model does not capture that name mismatch. Re-published events are not fed back into the loop, so no modelled behaviour depends on it.
- Both pipeline folds use the corrected metadata projection `ResponseMeta.ResponseMetadataFor`, not the code as written at line 557 (see "## Findings"). So on the finding's input, the code saves and commits the message (lines 142 and 292) and then raises KeyError (lines 157 and 303). The model answers or emits `message_end` instead. Each member this affects is listed below.
- FinalResponseMetadata: returns the corrected projection where line 303 (and line 157) raises KeyError for a privileged caller whose task metadata has no usage.
- StreamFinalize: emits `message_end` where line 303 raises on the finding's input, after the commit.
- BlockingFinalize: answers where line 157 raises on the finding's input, after the commit.
- StreamDispatch: its terminal branches go through StreamFinalize, so they inherit the corrected projection.
- BlockingDispatch: its terminal branches go through BlockingFinalize, so they inherit the corrected projection. Its successful-run branch reads `outputs` as a mapping (line 127).
- ProcessStream: proved equal to `RunStream`, whose terminal step uses the corrected projection.
- ProcessBlocking: proved equal to `RunBlocking`, whose terminal step uses the corrected projection and reads `outputs` as a mapping.
- StreamCommitsPerTerminal: it counts one commit per terminal event. On the finding's input the code raises at line 303 right after the first commit, which ends the generator, so no later terminal is reached.
- StreamFinishRedacts: its "`message_end` follows" holds for the corrected projection; on the finding's input line 303 raises instead.
- BlockingDecidedAtFirstTerminal: its "a response for a stop or a successful run" holds for the corrected projection. On the finding's input line 157 raises, and an `outputs` value that is not a mapping would raise at line 127.
- BlockingCommitsAtMostOnce: its "commits exactly when it responds" holds for the corrected projection. On the finding's input the code commits at line 142 and then raises at line 157.
- BlockingSuccessResponse: its metadata is the corrected projection where line 157 raises on the finding's input, and its answer reads `outputs` as a mapping.
- ModesAgreeOnSuccessfulRun: it needs `outputs` and `outputs_dict` to hold the same mapping, which the code does not guarantee (see ModesReadDifferentOutputs), and it compares the corrected metadata.
- LegacyNormalises: states the shape of a normalised `agent_mode`. The values written for falsy fields are stated by `DatasetProps.AgentModeFieldDefaults` and `DatasetProps.MissingAgentModeDefaults`.
- Lines 32-33 and 41-42 of `dataset.py` are not modelled as branches, because they can never fire. `DatasetProps.NonObjectDatasetConfigsCrashes` proves the first one. The second follows because nothing between them rewrites `dataset_configs`.

## Findings

| source | as written | input that shows it | evidently intended | confidence | as-written member | corrected member |
|---|---|---|---|---|---|---|
| api/core/app/apps/advanced_chat/generate_task_pipeline.py:556-557 | a privileged caller reads `metadata['usage']` unconditionally | task metadata holding only `retriever_resources` (no LLM node succeeded), requested from the debugger: the non-empty metadata triggers `_get_response_metadata`, which raises `KeyError` | include `usage` only when the task collected one | not executed | ResponseMeta.AsWrittenKeyError | ResponseMeta.GetResponseMetadata |
