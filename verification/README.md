# swarm_router in Dafny

This project models swarm_router, a Python library that sends chat prompts to
a pool of OpenAI-compatible models. The model covers the library's core:

- **Configuration** (`config.py`): built from the environment. It holds the
  model registry, per-tier timeouts, and the prompt classifier (T1/T2/T3 by
  word count and deep-reasoning keywords).
- **Health monitor** (`health.py`): registers endpoints, refreshes them from
  probe results, and answers `is_up`.
- **Orchestrator** (`orchestrator.py`):
  - the auto-router searches the detected tier's fallback order for the
    first reachable model whose call succeeds;
  - consensus asks one model per tier, then synthesises their answers or
    concatenates them;
  - the knowledge pipeline enriches the prompt from a knowledge store,
    generates the answer, and reports it.
- **Swarm** (`swarm.py`): parallel calls to a tier's models, a quality
  score, a stable best-first ranking, and first-success racing.
- **MCP bridge** (`mcp_bridge.py`): the JSON-RPC request dispatcher, the two
  tools' empty-prompt checks, and the stdin loop that cuts bytes into lines
  and answers each one.

Everything outside the process becomes a parameter:

- a model call is a function from the request to a response or an error;
- a health probe round is a map from service to probe outcome;
- the order in which parallel calls complete is a permutation;
- JSON decoding of a line is an oracle.

A Python exception on a path the code does not catch becomes a `Failure`
carrying a `PyError`, so crash paths are stated and proved, not assumed away.

Modules, one per file:

- `Wrappers`: Option/Result.
- `Text`: the string functions the code uses (`split`, `lower`, `in`,
  `startswith`, slicing, `join`, integer printing and parsing).
- `PyJson`: JSON values as Python sees them (truthiness, `str`, `repr`,
  `json.dumps`, `dict.get`, subscripting, `len`, `int`).
- `Config`, `Health`, `Router`, `Consensus`, `Pipeline`.
- `Completion`: completion orders.
- `Ranking`: stable `sorted(..., reverse=True)`.
- `Swarm`, `Mcp`.
- `Framing`: line cutting and the serve loop.
- `Server`: the loop with the bridge's dispatcher.

Two points of `auto_route` that are easy to misread:

- it reports the model tier it answered from ("fast", "power", "deep"), not
  the detected complexity tier (`orchestrator.py:148-152` returns the
  tier `t` of the search loop);
- a forced tier that is the empty string falls back to the classifier
  (`tier or classify_complexity(...)`, `orchestrator.py:107`).

## Model

| member | source | states |
|---|---|---|
| Config.PostInit | src/swarm_router/config.py:87-107 | Models, primary endpoint, thresholds and keywords are kept. A secondary endpoint exists iff one was given, or the environment gives a non-empty URL and key. A given knowledge URL is kept, otherwise the environment's is used. Each tier timeout is (5, override) when the environment overrides it, and unchanged otherwise. |
| Config.AddModel | src/swarm_router/config.py:109-126 | Exactly one entry is appended at the end, with the given id, tier and latency. Its endpoint is the given one or the primary. Nothing else in the configuration changes. |
| Config.FilterTier | src/swarm_router/config.py:128-130 | Every entry returned has the requested tier, and there are no more entries than registered. |
| Config.FilterTierIndices | src/swarm_router/config.py:128-130 | A tier's list is exactly the registry entries with that tier, in registration order. An increasing index list picks them out, and no other entry. |
| Config.TierModelsAfterAdd | src/swarm_router/config.py:109-130 | After `add_model`, a tier's list is the old list, plus the new entry iff it has that tier. |
| Config.FilterTierSnoc | src/swarm_router/config.py:128-130 | Filtering a registry extended by one entry adds that entry iff it has the tier. |
| Config.TimeoutsFromEnv | src/swarm_router/config.py:132-141 | For a configuration built from the environment, every tier connects in 5 s. Read time: T1/fast uses the fast override or 30, T3/deep the deep override or 120, any other tier the power override or 60. |
| Config.ClassifyComplexity | src/swarm_router/config.py:143-151 | The result is T1, T2 or T3. T3 iff a deep keyword occurs in the lower-cased prompt or the word count exceeds the T2 limit. T2 iff no keyword occurs and the count is above the T1 limit and within the T2 limit. |
| Config.ClassifyMonotone | src/swarm_router/config.py:143-151 | Appending text to a prompt never lowers its tier. |
| Config.DeepKeywordExtend | src/swarm_router/config.py:147-148 | A deep keyword present in a prompt stays present when text is appended. |
| Config.WordStartsExtend | src/swarm_router/config.py:145 | Appending text never lowers the `split()` word count. |
| Config.ClassifyWhy | src/swarm_router/config.py:69-85 | With the default keywords, the prompt "why" is T3. |
| Config.ClassifyShortWord | src/swarm_router/config.py:143-151 | A single word of one or two characters is T1 under the default keywords. |
| Config.DefaultConfig | src/swarm_router/config.py:159-177 | The primary key comes from the environment, else "sk-default". Exactly one model ("default", fast, primary endpoint, 5.0) is registered iff the key is not "sk-default". |
| Health.Register | src/swarm_router/health.py:22-29 | The service is added with its URL and its headers (an empty map when none are given), and marked down. Every other service keeps its registration and status. Validity (statuses only for registered services) is preserved. |
| Health.Verdict | src/swarm_router/health.py:34-39 | A probe is up iff it returned an HTTP status below 400. An exception means down. |
| Health.Collect | src/swarm_router/health.py:41-53 | The results name only registered services, and every registered service whose probe finished. |
| Health.Refresh | src/swarm_router/health.py:31-56 | Endpoints are unchanged and the returned map is the new status. A registered service with a probe result gets that verdict. Every other name keeps its previous status or absence. |
| Health.RefreshStatus | src/swarm_router/health.py:54-60 | After a refresh, `is_up` of a probed registered service is the probe's verdict. For any other name, `is_up` is unchanged. |
| Health.RefreshValid | src/swarm_router/health.py:54-56 | A refresh keeps statuses limited to registered services. |
| Health.RefreshIdempotent | src/swarm_router/health.py:31-56 | Refreshing again with the same probe results changes nothing. |
| Health.UnknownIsDown | src/swarm_router/health.py:58-60 | An unregistered service is reported down. |
| Health.RegisterReportsDown | src/swarm_router/health.py:22-29 | A just-registered service is down, and other services' `is_up` is unaffected. |
| Health.IsUp | src/swarm_router/health.py:58-60 | `is_up`: the stored status, False for a name never probed or registered; carried by `Health.RefreshStatus`, `Health.UnknownIsDown` and `Health.RegisterReportsDown`. |
| Router.Messages | src/swarm_router/orchestrator.py:108-111 | The user message comes last. A system message precedes it iff a non-empty system prompt is given. |
| Router.ExtractText | src/swarm_router/orchestrator.py:78-82 | `_extract_text` returns the `choices[0].message.content` value when that path exists, else `str()` of the whole response. It never fails. |
| Router.ExtractEnvelope | src/swarm_router/orchestrator.py:78-82 | Extraction recovers the content from a well-formed completion envelope. |
| Router.ExtractWithoutChoices | src/swarm_router/orchestrator.py:78-82 | A dict without "choices" is rendered with `repr`. |
| Router.SearchOrder | src/swarm_router/orchestrator.py:114-119 | T3 searches deep, power, fast. T2 searches power, fast. Anything else searches fast. |
| Router.DetectTier | src/swarm_router/orchestrator.py:107 | A non-empty forced tier is used as is. Without one (or with ""), the tier is T1, T2 or T3, exactly the classifier's verdict. |
| Router.TierCandidates | src/swarm_router/orchestrator.py:123-131 | Candidates are drawn from the tier's entries, skipping endpoints the monitor reports down; `Router.TierCandidatesIndices` shows they are exactly the reachable entries, in registration order. |
| Router.TierCandidatesIndices | src/swarm_router/orchestrator.py:123-131 | An increasing index list picks the tier's candidates out of its entries: entry i is a candidate iff its endpoint is reachable, and candidates keep registration order. |
| Router.Candidates | src/swarm_router/orchestrator.py:122-131 | Every candidate's tier is in the search order, matches its entry's tier, and is reachable; completeness and tier order are `Router.CandidatesComplete` and `Router.CandidatesTierOrder`. |
| Router.CandidatesComplete | src/swarm_router/orchestrator.py:122-131 | Every reachable model of every tier in the order is a candidate, under that tier. |
| Router.CandidatesTierOrder | src/swarm_router/orchestrator.py:122-131 | For an order naming each tier once (as every search order does, `Router.SearchOrderDistinct`), candidates come tier by tier: a later candidate's tier never comes earlier in the order. |
| Router.Search | src/swarm_router/orchestrator.py:121-161 | The search makes at most one call per candidate. When it makes none, it is exhausted with the previous error. |
| Router.SearchAttempts | src/swarm_router/orchestrator.py:121-157 | The calls made are a prefix of the candidates' requests, in order, and every call but the last failed. |
| Router.SearchSuccess | src/swarm_router/orchestrator.py:132-154 | On success, the last call succeeded, and the result names that candidate's model, its model tier, and the extracted text. |
| Router.SearchExhausted | src/swarm_router/orchestrator.py:155-161 | On failure, every candidate was called and failed. The error names the detected tier and the last call's error. |
| Router.SearchOutcome | src/swarm_router/orchestrator.py:121-161 | A success comes from a tier in the order. Exhaustion carries the detected tier, and the last error (None when nothing was called). |
| Router.AutoRouteAttempts | src/swarm_router/orchestrator.py:103-157 | Every call `auto_route` makes goes to a reachable candidate of the detected tier's order, after the route's own refresh. |
| Router.AutoRouteExhaustedTriedAll | src/swarm_router/orchestrator.py:121-161 | An exhausted route called every registered model of every tier of its fallback order whose endpoint was up after the route's refresh. |
| Router.AutoRoute | src/swarm_router/orchestrator.py:90-161 | `auto_route`: refresh, detect the tier, and take the first successful call over the candidates in fallback order. Its contract is carried by `Router.AutoRouteAttempts`, `Router.AutoRouteOutcome` and `Router.AutoRouteExhaustedTriedAll`. |
| Router.AutoRouteOutcome | src/swarm_router/orchestrator.py:103-161 | A success reports a model tier from the fallback order. Exhaustion reports the detected tier. The last error is None iff there was no candidate; otherwise it is the last call's failure. |
| Router.ForcedDeepFallsBackToFast | src/swarm_router/orchestrator.py:113-154 | With only fast models, no monitor and T3 forced, exactly one call goes to the first fast model with the fast timeout, and its answer is returned with tier "fast". |
| Router.HiRoutesToOnlyFastModel | src/swarm_router/orchestrator.py:103-154 | With one fast model on a fresh configuration, "Hi" is T1, and the only call goes to that model. |
| Router.AllDownExhausted | src/swarm_router/orchestrator.py:125-161 | When every endpoint is down after the refresh, no call is made and the route is exhausted with no last error. |
| Router.NoCandidates | src/swarm_router/orchestrator.py:122-131 | With every registered model unreachable, there is no candidate in any order. |
| Consensus.FirstOfTier | src/swarm_router/orchestrator.py:189-192 | At most one entry; present iff the tier has models, and then it is that tier's first model. |
| Consensus.DefaultSelection | src/swarm_router/orchestrator.py:186-192 | The default selection has at most three models. |
| Consensus.DefaultSelectionPicksFirsts | src/swarm_router/orchestrator.py:186-192 | Each selected model is the first of its tier, in the order fast, power, deep. |
| Consensus.DefaultSelectionCovers | src/swarm_router/orchestrator.py:186-192 | Every tier with a model contributes one. |
| Consensus.CallEntry | src/swarm_router/orchestrator.py:201-226 | A down endpoint gives an "unavailable" record without a call. Otherwise one call goes out with the entry's tier timeout. The error is None iff the call succeeded, and then the response is the extracted text. |
| Consensus.CollectedPermutes | src/swarm_router/orchestrator.py:228-236 | Whatever the completion order, the collected records are a permutation (same multiset) of the selected models' records: one record per model, none lost or repeated. |
| Completion.PermuteMultiset | src/swarm_router/orchestrator.py:228-236 | Reading a sequence in any completion order gives the same multiset of elements. |
| Consensus.Successful | src/swarm_router/orchestrator.py:238 | The kept records are those with a truthy response. |
| Consensus.SuccessfulAppend | src/swarm_router/orchestrator.py:238 | Filtering distributes over concatenation. |
| Consensus.SuccessfulOfThree | src/swarm_router/orchestrator.py:238 | Filtering three records keeps the truthy ones in order. |
| Consensus.SuccessfulEmpty | src/swarm_router/orchestrator.py:238-240 | Nothing is kept iff no record has a truthy response. |
| Consensus.BlocksContain | src/swarm_router/orchestrator.py:248-249 | The k-th answer appears in the prompt's answer blocks under number i + k. |
| Consensus.SynthesisPresentsAnswers | src/swarm_router/orchestrator.py:243-250 | The synthesis prompt starts with the instructions and the question, and contains every successful answer's numbered block. |
| Consensus.ConcatenationPresentsAnswers | src/swarm_router/orchestrator.py:257-260 | The fallback contains every labelled answer; a single answer is the whole fallback. |
| Consensus.ConsensusFailsIffNoAnswer | src/swarm_router/orchestrator.py:238-240 | Consensus fails, with "All consensus models failed.", iff no selected model gave a truthy answer, whatever the completion order. |
| Consensus.ConsensusAnswer | src/swarm_router/orchestrator.py:243-262 | On success: the records come in completion order, the count is the number of truthy answers, and the synthesis is a T2 route on the synthesis prompt. The merged answer is the synthesis's answer, or the concatenation when synthesis fails. |
| Consensus.DownModelsNotCalled | src/swarm_router/orchestrator.py:202-207 | A model whose endpoint is down is never called. |
| Consensus.PartialFailure | src/swarm_router/orchestrator.py:228-262 | With three models of which the middle one fails, consensus succeeds with three records and a count of 2. The two answers appear in completion order, and the failed model's record has an error. |
| Consensus.PartialFailureRecords | src/swarm_router/orchestrator.py:228-240 | The collected records of that scenario, for every completion order. |
| Consensus.RunConsensus | src/swarm_router/orchestrator.py:169-262 | `consensus`: its contract is carried by `Consensus.ConsensusFailsIffNoAnswer`, `Consensus.ConsensusAnswer`, `Consensus.DownModelsNotCalled` and `Consensus.CollectedPermutes`. |
| Consensus.OrdersOfThree | src/swarm_router/orchestrator.py:229-232 | The completion orders of three calls are the six permutations. |
| Pipeline.KnowledgeResults | src/swarm_router/orchestrator.py:270-284 | The store's answer is read as follows: a list as is; a dict's "results" value, or `[dict]` when the key is absent; any failure or other value as no results. |
| Pipeline.KnowledgeItems | src/swarm_router/orchestrator.py:270-284 | The lenient reading of the results: a list's items, a string's characters (one item each, as many as `len` counts), and no items for anything else. |
| Pipeline.ChosenText | src/swarm_router/orchestrator.py:308-313 | The item's text, else its content, else its summary (the first truthy one), else its JSON dump. |
| Pipeline.Truncate | src/swarm_router/orchestrator.py:316 | `[:500]` succeeds iff the value is a string or a list. A string is cut to its first 500 characters. |
| Pipeline.Lines | src/swarm_router/orchestrator.py:307-316 | The lines succeed iff every item's text can be cut. Line k is "[i+k] " followed by that text. |
| Pipeline.FormatContext | src/swarm_router/orchestrator.py:303-318 | Falsy results give "". A successful context starts with the header. Truthy results that are neither a list nor a string raise. |
| Pipeline.FormatContextFirstFive | src/swarm_router/orchestrator.py:307 | Only the first five items matter. |
| Pipeline.FormatContextShowsItems | src/swarm_router/orchestrator.py:303-318 | Each of the first five items appears in the context as its numbered line, with at most 500 characters of string text. |
| Pipeline.ItemTextOfTextField | src/swarm_router/orchestrator.py:308-316 | A non-empty "text" field is used, cut to 500 characters. |
| Pipeline.GenerateOutcome | src/swarm_router/orchestrator.py:355-363 | Without consensus, generation is `auto_route` on the enriched prompt: its failure is the pipeline's, and its answer, model and tier are reported. With consensus, a consensus failure is the pipeline's, and otherwise the merged answer and the number of models are reported. |
| Pipeline.Assemble | src/swarm_router/orchestrator.py:378-386 | The record is built iff the context results have a length, and it echoes prompt, enriched prompt, count, model info and `store`. |
| Pipeline.PipelineRecord | src/swarm_router/orchestrator.py:343-386 | The result echoes the original prompt and `store`. The enriched prompt is the original unless the store was consulted and gave a non-empty context; then it is context, "USER QUESTION" and prompt. |
| Pipeline.PipelineRouteAnswer | src/swarm_router/orchestrator.py:355-363 | The pipeline's answer is the route's answer on the enriched prompt, and a route failure is the pipeline's failure. |
| Pipeline.RunPipeline | src/swarm_router/orchestrator.py:321-386 | `pipeline`: enrich, generate, assemble. Its contract is carried by `Pipeline.PipelineRecord`, `Pipeline.PipelineRouteAnswer`, `Pipeline.UnreachableStore` and the two crash lemmas. |
| Pipeline.Enrich | src/swarm_router/orchestrator.py:342-352 | The store is read only when enrichment is asked for and a knowledge URL is set; a non-empty context is put before "USER QUESTION:" and the prompt. Carried by `Pipeline.PipelineRecord` and `Pipeline.LenientEnrichAgrees`. |
| Pipeline.UnreachableStore | src/swarm_router/orchestrator.py:281-284 | A failing store leaves the prompt unenriched with a count of 0. |
| Pipeline.FalsyResultsCrash | src/swarm_router/orchestrator.py:281 | A store answering `{"results": null}` (or 0, or false) makes `len()` raise after the answer was produced. |
| Pipeline.UnsliceableTextCrash | src/swarm_router/orchestrator.py:308-316 | A first item whose chosen text is an int, a bool or a dict makes `[:500]` raise, and the pipeline fails. |
| Pipeline.LenientItemText | src/swarm_router/orchestrator.py:308-316 | The corrected line text never raises, has at most 500 characters, and agrees with the original where that succeeds on string text. |
| Pipeline.LenientContext | src/swarm_router/orchestrator.py:303-318 | The corrected context is empty iff there are no items. |
| Pipeline.LenientContextAgrees | src/swarm_router/orchestrator.py:303-318 | On results the original gets through (a string, an empty dict, or a list whose dict items have string texts) the corrected context equals `_format_context`. |
| Pipeline.LenientEnrich | src/swarm_router/orchestrator.py:343-352 | Corrected enrichment never raises. The prompt is unchanged iff there are no items; otherwise the enriched prompt starts with the header. |
| Pipeline.LenientPipeline | src/swarm_router/orchestrator.py:321-386 | The corrected pipeline fails iff generation fails. Its count is the number of items read. |
| Pipeline.LenientPipelineSurvivesFalsyResults | src/swarm_router/orchestrator.py:281 | With `{"results": null}` the corrected pipeline returns the routed answer, unenriched, with a count of 0. |
| Pipeline.LenientPipelineAnswersIffRouted | src/swarm_router/orchestrator.py:343-363 | The corrected pipeline answers iff the route on its enriched prompt does, whatever the store sends. |
| Pipeline.LenientEnrichAgrees | src/swarm_router/orchestrator.py:343-352 | On the same results, the enriched prompts are equal and the corrected item count equals `len(context_results)`; for a list the results themselves are equal. |
| Pipeline.LenientPipelineAgrees | src/swarm_router/orchestrator.py:321-386 | On the same results, the corrected pipeline gives the very same result as `pipeline`; for a string such as `{"results": "hello"}` both count its characters (5) and show the first five. |
| Ranking.Insert | src/swarm_router/swarm.py:112-114 | Insertion adds exactly the element: length + 1, same multiset. |
| Ranking.SortBy | src/swarm_router/swarm.py:112-114 | The sort is a permutation of its input. |
| Ranking.InsertRanked | src/swarm_router/swarm.py:112-114 | Inserting into a ranked list keeps it ranked. |
| Ranking.SortByRanked | src/swarm_router/swarm.py:112-114 | The output's keys never increase. |
| Ranking.WithKeyInsert | src/swarm_router/swarm.py:112-114 | Insertion places the element ahead of the equal-key elements that followed it. |
| Ranking.SortByStable | src/swarm_router/swarm.py:112-114 | Elements with equal keys keep their relative order. |
| Ranking.SortByRankedIsIdentity | src/swarm_router/swarm.py:112-114 | A ranked list is left as it is. |
| Ranking.SortByIdempotent | src/swarm_router/swarm.py:112-114 | Sorting twice is sorting once. |
| Swarm.CallModel | src/swarm_router/swarm.py:35-84 | The status is ok iff the call answered, the content path exists and the usage lookup works; then the content is that value. It is timeout iff the call timed out. A non-ok result has null content and tokens. An error message is present iff the status is error. |
| Swarm.LengthScore | src/swarm_router/swarm.py:97-99 | Length / 500 capped at 3, or 0.1 below 50 characters. |
| Swarm.HeadingLineIffSplitLines | src/swarm_router/swarm.py:104 | The heading test holds iff some line of `content.splitlines()` starts with "#" (lines cut at every Python line break, "\r\n" counting once). |
| Swarm.HasHeadingLine | src/swarm_router/swarm.py:104 | The heading bonus's test: "#" at the start or right after a line break; `Swarm.HeadingLineIffSplitLines` proves it equals the `splitlines()` reading. |
| Text.SplitLines | src/swarm_router/swarm.py:104 | `str.splitlines()`: the lines between breaks, with "\r\n" as one break and no empty line after a final break; `Swarm.HeadingLineIffSplitLines` relates it to the heading test. |
| Swarm.SpeedScore | src/swarm_router/swarm.py:107 | 1 - elapsed/30, floored at 0. |
| Swarm.Score | src/swarm_router/swarm.py:92-109 | -1 for a non-ok result or falsy content. Raises iff the content is truthy but not a string. Otherwise the sum of the three parts. |
| Swarm.AnswerOutscoresFailure | src/swarm_router/swarm.py:92-109 | A non-empty string answer scores at least 0.1, above every failure's -1. |
| Swarm.RankStableIdempotent | src/swarm_router/swarm.py:112-114 | Ranking results is stable and idempotent. |
| Swarm.FirstScoreError | src/swarm_router/swarm.py:112-114 | No error is found iff every result can be scored. |
| Swarm.RankResults | src/swarm_router/swarm.py:112-114 | Ranking succeeds iff every result can be scored, and then returns a permutation ranked best first. |
| Swarm.AnswersBeforeFailures | src/swarm_router/swarm.py:92-114 | After ranking, every non-empty answer precedes every failure. |
| Swarm.LongerAnswerFirst | src/swarm_router/swarm.py:92-114 | A 600-character answer ranks ahead of a 30-character one with the same latency. |
| Swarm.Prefix | src/swarm_router/swarm.py:135 | `xs[:n]`: the first n elements, or all but the last -n for negative n, as a prefix. |
| Swarm.SwarmCallSpec | src/swarm_router/swarm.py:122-139 | The selection is a prefix of the tier's models, of length `max_models` when there are enough. The result is a ranked permutation of the dispatched results. |
| Swarm.SwarmCall | src/swarm_router/swarm.py:122-139 | `swarm_call`: select, dispatch, rank; carried by `Swarm.SwarmCallSpec`. |
| Swarm.FirstOk | src/swarm_router/swarm.py:157-166 | The race's result is ok, or it is the all-failed result. |
| Swarm.FirstOkSpec | src/swarm_router/swarm.py:157-166 | The race returns ok iff some completed result is ok, and then it is the first ok one in completion order. |
| Swarm.SwarmFirstSpec | src/swarm_router/swarm.py:142-166 | `swarm_first` is ok iff some dispatched call is ok, and then it is one of them; otherwise it returns the all-failed result. |
| Swarm.SwarmFirst | src/swarm_router/swarm.py:142-166 | `swarm_first`: the first ok result in completion order, else the all-failed result; carried by `Swarm.SwarmFirstSpec` and `Swarm.FirstOkSpec`. |
| Mcp.ToolQuery | src/swarm_router/mcp_bridge.py:47-54 | Non-dict arguments raise. |
| Mcp.ToolSwarm | src/swarm_router/mcp_bridge.py:83-90 | Non-dict arguments raise. |
| Mcp.EmptyPromptRequired | src/swarm_router/mcp_bridge.py:49-54 | When the timeout (or `max_models`) converts, an empty or missing prompt returns "Error: 'prompt' is required." without any work done. |
| Mcp.PromptGoesToWork | src/swarm_router/mcp_bridge.py:83-90 | A truthy prompt is passed, with the converted timeout or `max_models`, to the tool's work. |
| Mcp.RunTool | src/swarm_router/mcp_bridge.py:193-197 | A handler exists iff the name is one of the three tools. |
| Mcp.ToolsAreTheHandlers | src/swarm_router/mcp_bridge.py:148-197 | The listed tools are exactly the three handled names, in order. |
| Mcp.Reply | src/swarm_router/mcp_bridge.py:241-248 | A reply carries "jsonrpc": "2.0" and the request id. |
| Mcp.ReplyLookup | src/swarm_router/mcp_bridge.py:241-248 | Looking up "jsonrpc", "id" and the body key in a reply gives them. |
| Mcp.TextResult | src/swarm_router/mcp_bridge.py:231-257 | A text result answers the request id. |
| Mcp.InitializeResult | src/swarm_router/mcp_bridge.py:209-218 | The initialize reply answers the request id. |
| Mcp.InitializeAdvertises | src/swarm_router/mcp_bridge.py:209-218 | It announces protocol 2024-11-05 and the fixed tool capabilities. |
| Mcp.CallTool | src/swarm_router/mcp_bridge.py:226-257 | `tools/call` answers the id. It raises iff params is not a dict or the tool name is unhashable. |
| Mcp.Dispatch | src/swarm_router/mcp_bridge.py:204-263 | Every reply answers the request id. |
| Mcp.HandleRequest | src/swarm_router/mcp_bridge.py:204-207 | A request that is not a dict raises. |
| Mcp.RepliesEchoId | src/swarm_router/mcp_bridge.py:204-263 | Every reply carries "jsonrpc": "2.0" and the request's id. |
| Mcp.Initialize | src/swarm_router/mcp_bridge.py:209-218 | "initialize" gives the initialize reply. |
| Mcp.SilentIffNotification | src/swarm_router/mcp_bridge.py:220-221 | There is no reply iff the method is a string starting with "notifications/". |
| Mcp.ToolsList | src/swarm_router/mcp_bridge.py:223-224 | "tools/list" returns the tool registry. |
| Mcp.UnknownTool | src/swarm_router/mcp_bridge.py:229-238 | An unknown tool name gives an error text result "Unknown tool: name". |
| Mcp.KnownTool | src/swarm_router/mcp_bridge.py:239-257 | A known tool's text becomes a result; its exception becomes "Tool error: ..." with isError set. |
| Mcp.MethodNotFound | src/swarm_router/mcp_bridge.py:259-263 | Any other string method gives error -32601 "Method not found: method". |
| Mcp.NonStringMethodRaises | src/swarm_router/mcp_bridge.py:220 | A method that is not a string makes `startswith` raise. |
| PyJson.ToInt | src/swarm_router/mcp_bridge.py:51 | `int()` of a decoded argument: an integer is itself, a boolean 0 or 1, a string is parsed (`Text.ParseIntOfIntToString`, `Text.ParseIntGrouped`, `Text.ParseIntStrayUnderscore`), anything else raises. |
| Text.ParseIntOfIntToString | src/swarm_router/mcp_bridge.py:51 | `int(str(i)) == i` for every integer. |
| Text.ParseIntGrouped | src/swarm_router/mcp_bridge.py:51 | `int("1_000")` is 1000: single underscores between digits are accepted. |
| Text.ParseIntStrayUnderscore | src/swarm_router/mcp_bridge.py:87 | A doubled, leading or trailing underscore is rejected. |
| Text.Words | src/swarm_router/config.py:145 | `split()`: every word is a non-empty run without whitespace; `Text.WordCountIsWordStarts` counts them independently. |
| Text.WordCountIsWordStarts | src/swarm_router/config.py:145 | The number of `split()` words is the number of non-space characters that begin the text or follow a whitespace character. |
| Framing.NewlineAt | src/swarm_router/mcp_bridge.py:301 | Finds the first newline, or reports that there is none. |
| Framing.Split | src/swarm_router/mcp_bridge.py:301-302 | Neither the cut lines nor the remainder contain a newline. |
| Framing.UnsplitSplit | src/swarm_router/mcp_bridge.py:301-302 | Lines rejoined with newlines, plus the remainder, give the buffer back. |
| Framing.SplitUnsplit | src/swarm_router/mcp_bridge.py:301-302 | Newline-free lines and remainder are recovered from their join. |
| Framing.SplitAppend | src/swarm_router/mcp_bridge.py:299-302 | Cutting a + b is cutting a, then cutting its remainder followed by b. |
| Framing.StripStart | src/swarm_router/mcp_bridge.py:303 | Drops exactly the leading ASCII whitespace. |
| Framing.StripEnd | src/swarm_router/mcp_bridge.py:303 | Drops exactly the trailing ASCII whitespace. |
| Framing.Strip | src/swarm_router/mcp_bridge.py:303-305 | The result is empty iff the line is all whitespace; otherwise both ends are non-whitespace. |
| Framing.ServeLine | src/swarm_router/mcp_bridge.py:303-313 | A line is skipped iff it is blank, is not JSON, or the dispatcher returns no reply. The loop stops iff the line is not text or the dispatcher raises. A reply is sent iff the line parses and the dispatcher returns one. |
| Framing.Run | src/swarm_router/mcp_bridge.py:299-316 | At most one reply per line. |
| Framing.RunAppend | src/swarm_router/mcp_bridge.py:299-316 | Running two batches runs the first, then the second unless the first stopped. |
| Framing.ServeLinesAppend | src/swarm_router/mcp_bridge.py:299-316 | The same, for lines. |
| Framing.ServeIsChunkingFree | src/swarm_router/mcp_bridge.py:292-316 | Replies and the stopping error are those of the stream's complete lines, however stdin was chunked. Unterminated bytes stay buffered. |
| Framing.SameBytesSameReplies | src/swarm_router/mcp_bridge.py:292-316 | Two chunkings of the same bytes give the same replies. |
| Framing.Feed | src/swarm_router/mcp_bridge.py:296-302 | One stdin read: append to the buffer, then serve the complete lines; carried by `Framing.ServeIsChunkingFree` and `Framing.RunAppend`. |
| Framing.Serve | src/swarm_router/mcp_bridge.py:292-316 | The stdin loop over a sequence of reads; carried by `Framing.ServeIsChunkingFree` and `Framing.SameBytesSameReplies`. |
| Server.NonObjectLineSilencesServer | src/swarm_router/mcp_bridge.py:306-316 | A line holding JSON that is not an object stops the server before any later reply. |
| Server.GuardedHandlerAgrees | src/swarm_router/mcp_bridge.py:204-207 | The corrected dispatcher equals the original on objects, and passes over non-objects where the original raises. |
| Server.NonObjectLineSkipped | src/swarm_router/mcp_bridge.py:306-316 | With the corrected dispatcher, such a line is skipped, and the later lines are served as if it were absent. |

## Left out

- HTTP itself (URLs, headers, payloads, `raise_for_status`, `max_tokens`) is left out. Every call is an oracle from the request (model id, messages, endpoint, timeout) to a decoded response or an error.
- Concurrency is replaced by a completion order:
  - `ThreadPoolExecutor`, `asyncio.gather`, `wait`, and the cancelling of pending tasks;
  - the `as_completed` deadline, and the "unknown" record when a worker raises;
  - the health monitor's lock;
  - the daemon threads (the knowledge-store write, the stdin reader).

  A deadline that expires before every worker finishes is not modelled.
- Clocks and rounding are left out: `latency_s`, `total_latency_s`, the strftime stamp, and `round(elapsed, 2)`. Elapsed time is an input of the call outcome, and the scores use exact reals.
- The configuration fallback `config or default_config()` is left out; every operation receives its configuration.
- Parsing of the environment's timeout strings as floats is left out; overrides arrive as reals.
- The knowledge-store write is left out: fire-and-forget, its result is never read, and only `stored` is echoed.
- `_tool_status` and the bodies of `_tool_query` and `_tool_swarm` after the prompt check are left out. They are HTTP and event-loop work, passed in as the tool's work.
- `json.loads`, UTF-8 decoding, and the bytes written by `json.dumps` are left out. Decoding is an oracle, and replies are JSON values.
- The escaping done by `repr` and `json.dumps` is left out, and JSON numbers are integers only.
- `str.lower` is left out beyond ASCII: only ASCII letters are folded.
- The command-line entry points and the examples are left out.
- Swarm.AllFailedResult: Python's all-failed dict has only model, status and content keys. The model's record also holds elapsed, tokens and error, set to None/null.
- Health.GetAll has no contract of its own: it returns the status map unchanged.
- PyJson.ToInt: only ASCII digits are read. Python's `int()` also accepts other Unicode decimal digits (Arabic-Indic, full-width), and those strings are rejected here.
- Mcp.ToolQuery, Mcp.ToolSwarm: through `PyJson.ToInt`, a "timeout" or "max_models" string written in non-ASCII decimal digits raises here where Python converts it.
- Pipeline.LenientItemText: a dict item whose chosen text is a list is rendered with `str()` and then cut to 500 characters; the original cuts the list to 500 elements first. The lenient pipeline agrees with the original only where no chosen text is a list.

## Findings

| source | as written | input that shows it | evidently intended | confidence | as-written member | corrected member |
|---|---|---|---|---|---|---|
| src/swarm_router/orchestrator.py:281 | `data.get("results", [data])` passes any value on. A falsy non-list passes `_format_context` and then makes `len(context_results)` raise after the answer was produced; a non-string item text makes `[:500]` raise. | store answers `{"results": null}`, or `[{"text": 5}]` | enrichment failures are non-fatal (the search swallows every exception), so a malformed store answer counts as no context | medium, not executed | Pipeline.FalsyResultsCrash, Pipeline.UnsliceableTextCrash | Pipeline.LenientPipeline, Pipeline.LenientPipelineSurvivesFalsyResults, Pipeline.LenientPipelineAgrees |
| src/swarm_router/mcp_bridge.py:306-316 | only `JSONDecodeError` is skipped. A line holding valid JSON that is not an object reaches `request.get`, the AttributeError escapes to the outer handler, and the loop breaks. | the stdin line `[]` followed by a valid `initialize` request | a line that is not a request is passed over like a line that is not JSON, and the server keeps serving | medium, not executed | Server.NonObjectLineSilencesServer | Server.GuardedHandler, Server.NonObjectLineSkipped, Server.GuardedHandlerAgrees |
