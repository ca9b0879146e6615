/** The knowledge-enriched pipeline: optionally fetch context from the
    knowledge store and prepend it to the prompt, answer through the
    auto-router or consensus, and assemble the result record. */
module Pipeline {
  import opened Wrappers
  import opened Text
  import opened PyJson
  import opened Config
  import opened Health
  import opened Router
  import opened Consensus
  import opened Completion

  /** `_knowledge_search`'s result from the store's answer: a list as is, a
      dict's "results" (the dict itself, wrapped in a list, when absent);
      a failed request or any other value (`.get` raises) gives []. */
  function KnowledgeResults(answer: Result<Json, string>): (results: Json)
    ensures answer.Failure? ==> results == JArr([])
    ensures answer.Success? && answer.value.JArr? ==> results == answer.value
    ensures answer.Success? && answer.value.JObj? && Lookup(answer.value.fields, "results").Some? ==>
              results == Lookup(answer.value.fields, "results").value
    ensures answer.Success? && answer.value.JObj? && Lookup(answer.value.fields, "results").None? ==>
              results == JArr([answer.value])
    ensures answer.Success? && !answer.value.JArr? && !answer.value.JObj? ==> results == JArr([])
  {
    match answer
    case Failure(_) => JArr([])
    case Success(data) =>
      if data.JArr? then data
      else match Get(data, "results", JArr([data]))
        case Success(r) => r
        case Failure(_) => JArr([])
  }

  const Header: string := "RELEVANT KNOWLEDGE FROM MEMORY:"
  const MaxItems: nat := 5
  const MaxText: nat := 500

  /** `item.get(key)` on a dict. */
  function Field(fields: seq<(string, Json)>, key: string): Json {
    Lookup(fields, key).GetOr(JNull)
  }

  /** `item.get("text") or item.get("content") or item.get("summary") or json.dumps(item)`. */
  function ChosenText(fields: seq<(string, Json)>): (v: Json)
    ensures Truthy(v) || v == JStr(Dumps(JObj(fields)))
    ensures Truthy(Field(fields, "text")) ==> v == Field(fields, "text")
    ensures !Truthy(Field(fields, "text")) && Truthy(Field(fields, "content")) ==> v == Field(fields, "content")
    ensures !Truthy(Field(fields, "text")) && !Truthy(Field(fields, "content")) && Truthy(Field(fields, "summary")) ==>
              v == Field(fields, "summary")
  {
    if Truthy(Field(fields, "text")) then Field(fields, "text")
    else if Truthy(Field(fields, "content")) then Field(fields, "content")
    else if Truthy(Field(fields, "summary")) then Field(fields, "summary")
    else JStr(Dumps(JObj(fields)))
  }

  /** `text[:500]` rendered into the line: a string keeps its first 500
      characters, a list its first 500 elements; any other value cannot be
      sliced. */
  function Truncate(v: Json): (r: Result<string, PyError>)
    ensures r.Success? <==> v.JStr? || v.JArr?
    ensures v.JStr? ==> |r.value| == (if |v.s| < MaxText then |v.s| else MaxText) && r.value == v.s[..|r.value|]
  {
    match v
    case JStr(s) => Success(Take(s, MaxText))
    case JArr(xs) => Success(Str(JArr(Take(xs, MaxText))))
    case JObj(_) => Failure(TypeError("unhashable type: 'slice'"))
    case _ => Failure(TypeError("'" + TypeName(v) + "' object is not subscriptable"))
  }

  /** The text one result item contributes: a dict's chosen field, anything
      else its `str()`, cut to 500. */
  function ItemText(item: Json): Result<string, PyError> {
    if item.JObj? then Truncate(ChosenText(item.fields)) else Truncate(JStr(Str(item)))
  }

  /** The line for the item numbered `i`. */
  function Line(i: nat, text: string): string {
    "[" + IntToString(i) + "] " + text
  }

  /** The lines for `items`, numbered from `i`; the first item whose text
      cannot be cut raises. */
  function Lines(items: seq<Json>, i: nat): (r: Result<seq<string>, PyError>)
    ensures r.Success? <==> forall k :: 0 <= k < |items| ==> ItemText(items[k]).Success?
    ensures r.Success? ==> |r.value| == |items|
    ensures r.Success? ==> forall k :: 0 <= k < |items| ==> r.value[k] == Line(i + k, ItemText(items[k]).value)
  {
    NumberedLinesFail(ItemText, items, i);
    NumberedLinesValue(ItemText, items, i);
    NumberedLines(ItemText, items, i)
  }

  /** `Lines` for any way `text` of cutting an item's text. */
  function NumberedLines(text: Json -> Result<string, PyError>, items: seq<Json>, i: nat): Result<seq<string>, PyError>
    decreases |items|
  {
    if items == [] then Success([])
    else
      match text(items[0])
      case Failure(e) => Failure(e)
      case Success(t) =>
        match NumberedLines(text, items[1..], i + 1)
        case Failure(e) => Failure(e)
        case Success(rest) => Success([Line(i, t)] + rest)
  }

  /** The numbering fails exactly when some item's text does. */
  lemma {:induction false} NumberedLinesFail(text: Json -> Result<string, PyError>, items: seq<Json>, i: nat)
    ensures NumberedLines(text, items, i).Success? <==> forall k :: 0 <= k < |items| ==> text(items[k]).Success?
    decreases |items|
  {
    if items != [] && text(items[0]).Success? {
      NumberedLinesFail(text, items[1..], i + 1);
      assert forall k :: 1 <= k < |items| ==> items[k] == items[1..][k - 1];
    }
  }

  /** On success, line `k` is item `k`'s text under number `i + k`. */
  lemma {:induction false} NumberedLinesValue(text: Json -> Result<string, PyError>, items: seq<Json>, i: nat)
    ensures var r := NumberedLines(text, items, i);
            r.Success? ==> |r.value| == |items| && forall k :: 0 <= k < |items| ==>
                             text(items[k]).Success? && r.value[k] == Line(i + k, text(items[k]).value)
    decreases |items|
  {
    var r := NumberedLines(text, items, i);
    if items != [] && r.Success? {
      var rest := NumberedLines(text, items[1..], i + 1);
      NumberedLinesValue(text, items[1..], i + 1);
      forall k | 0 <= k < |items| ensures text(items[k]).Success? && r.value[k] == Line(i + k, text(items[k]).value) {
        if k > 0 {
          assert items[k] == items[1..][k - 1];
          assert r.value[k] == rest.value[k - 1];
        }
      }
    }
  }

  /** The items `results[:5]` enumerates: list elements, or the characters of a string. */
  function Items(results: Json): seq<Json>
    requires results.JArr? || results.JStr?
  {
    if results.JArr? then Take(results.items, MaxItems)
    else seq(|Take(results.s, MaxItems)|, k requires 0 <= k < |Take(results.s, MaxItems)| => JStr([results.s[k]]))
  }

  /** `_format_context`: "" for falsy results; else the header and one
      numbered line per item of the first five, joined by newlines. Results
      that cannot be sliced raise. */
  function FormatContext(results: Json): (r: Result<string, PyError>)
    ensures !Truthy(results) ==> r == Success("")
    ensures Truthy(results) && r.Success? ==> StartsWith(r.value, Header)
    ensures Truthy(results) && !results.JArr? && !results.JStr? ==> r.Failure?
  {
    if !Truthy(results) then Success("")
    else if results.JArr? || results.JStr? then
      match Lines(Items(results), 1)
      case Failure(e) => Failure(e)
      case Success(lines) =>
        var s := Join([Header] + lines, "\n");
        JoinHead(Header, lines, "\n");
        Success(s)
    else if results.JObj? then Failure(TypeError("unhashable type: 'slice'"))
    else Failure(TypeError("'" + TypeName(results) + "' object is not subscriptable"))
  }

  /** A join starts with its first part. */
  lemma JoinHead(h: string, rest: seq<string>, sep: string)
    ensures StartsWith(Join([h] + rest, sep), h)
  {
    if rest != [] {
      assert ([h] + rest)[1..] == rest;
    }
  }

  /** Items after the fifth neither appear in the context nor can make it fail. */
  lemma FormatContextFirstFive(items: seq<Json>)
    requires |items| > MaxItems
    ensures FormatContext(JArr(items)) == FormatContext(JArr(items[..MaxItems]))
  {
    assert Take(items, MaxItems) == Take(items[..MaxItems], MaxItems);
  }

  /** Every line of a well-formed context is in it: item `k` (from 0) under
      number `k + 1`, with at most 500 characters of its text. */
  lemma FormatContextShowsItems(items: seq<Json>, k: nat)
    requires k < |items| && k < MaxItems
    requires FormatContext(JArr(items)).Success?
    ensures ItemText(items[k]).Success?
    ensures Contains(FormatContext(JArr(items)).value, Line(k + 1, ItemText(items[k]).value))
    ensures items[k].JObj? && ChosenText(items[k].fields).JStr? ==> |ItemText(items[k]).value| <= MaxText
    ensures !items[k].JObj? ==> |ItemText(items[k]).value| <= MaxText
  {
    var shown := Take(items, MaxItems);
    assert shown[k] == items[k];
    var lines := Lines(shown, 1).value;
    JoinContains([Header] + lines, "\n", k + 1);
    assert ([Header] + lines)[k + 1] == lines[k];
  }

  /** The text of a dict item whose "text" is a string: its first 500 characters. */
  lemma ItemTextOfTextField(fields: seq<(string, Json)>, s: string)
    requires Lookup(fields, "text") == Some(JStr(s)) && s != ""
    ensures ItemText(JObj(fields)) == Success(Take(s, MaxText))
  {
  }

  /** How the answer was produced. */
  datatype ModelInfo = ByConsensus(modelCount: nat) | ByRoute(model: string, tier: string)

  /** The pipeline's result record; latency is not modelled. */
  datatype PipelineResult = PipelineResult(
    answer: Json,
    promptOriginal: string,
    promptEnriched: string,
    contextResultsCount: nat,
    modelInfo: ModelInfo,
    stored: bool)

  /** Why the pipeline raised: formatting the context crashed, the answer
      could not be produced, or the context results have no length. */
  datatype PipelineError =
    | ContextCrash(e: PyError)
    | RouteFailed(routeError: RouteError)
    | ConsensusFailed(message: string)
    | CountCrash(e: PyError)

  /** The knowledge store is consulted: enrichment requested and a non-empty URL configured. */
  predicate Consults(enrich: bool, c: SwarmConfig) {
    enrich && c.knowledgeUrl.Some? && c.knowledgeUrl.value != ""
  }

  /** The context results and the prompt the generation step receives. */
  function Enrich(prompt: string, enrich: bool, c: SwarmConfig, storeAnswer: Result<Json, string>): Result<(Json, string), PyError> {
    if !Consults(enrich, c) then Success((JArr([]), prompt))
    else
      var results := KnowledgeResults(storeAnswer);
      var context :- FormatContext(results);
      Success((results, if context != "" then context + "\n\nUSER QUESTION:\n" + prompt else prompt))
  }

  /** `pipeline`: `storeAnswer` is what the store's search returned (read
      only when the store is consulted), `probes(0)` is the pipeline's own
      refresh and the generation step refreshes with the later rounds,
      `order` is the consensus completion order. Storing the answer is
      fire-and-forget and only echoed in `stored`. */
  function RunPipeline(prompt: string, enrich: bool, store: bool, useConsensus: bool, tier: Option<string>,
                       c: SwarmConfig, health: Option<Monitor>, probes: Probes, call: CallOracle,
                       storeAnswer: Result<Json, string>, order: seq<nat>): Result<PipelineResult, PipelineError>
    requires useConsensus ==> IsOrder(order, |DefaultSelection(c)|)
  {
    match Enrich(prompt, enrich, c, storeAnswer)
    case Failure(e) => Failure(ContextCrash(e))
    case Success(context) =>
      Finish(prompt, enrich, store, context.0, context.1,
             Generate(context.1, useConsensus, tier, c, RoutedHealth(health, probes), Later(probes), call, order))
  }

  /** The steps after generation: a generation failure is the pipeline's,
      an answer goes into the result record. */
  function Finish(prompt: string, enrich: bool, store: bool, results: Json, enriched: string,
                  g: Result<(Json, ModelInfo), PipelineError>): Result<PipelineResult, PipelineError> {
    match g
    case Failure(e) => Failure(e)
    case Success(answer) => Assemble(prompt, enrich, store, results, enriched, answer.0, answer.1)
  }

  /** With results of length `n`, the record is built from the answer with count `n`. */
  lemma FinishCounted(prompt: string, enrich: bool, store: bool, results: Json, enriched: string,
                      g: Result<(Json, ModelInfo), PipelineError>, n: nat)
    requires Len(results) == Some(n)
    ensures g.Failure? ==> Finish(prompt, enrich, store, results, enriched, g) == Failure(g.error)
    ensures g.Success? ==> Finish(prompt, enrich, store, results, enriched, g)
                           == Success(PipelineResult(g.value.0, prompt, if enrich then enriched else prompt, n, g.value.1, store))
  {
  }

  /** The generation step: consensus or the auto-router on the enriched
      prompt, with the monitor as the pipeline's refresh left it. */
  function Generate(enriched: string, useConsensus: bool, tier: Option<string>, c: SwarmConfig,
                    health: Option<Monitor>, probes: Probes, call: CallOracle, order: seq<nat>): Result<(Json, ModelInfo), PipelineError>
    requires useConsensus ==> IsOrder(order, |DefaultSelection(c)|)
  {
    if useConsensus then
      match RunConsensus(enriched, None, None, c, health, probes, call, order)
      case Failure(m) => Failure(ConsensusFailed(m))
      case Success(r) => Success((r.merged, ByConsensus(r.modelCount)))
    else
      match AutoRoute(enriched, None, tier, c, health, probes, call).result
      case Failure(e) => Failure(RouteFailed(e))
      case Success(r) => Success((r.response, ByRoute(r.model, r.tier)))
  }

  /** Without consensus a route failure is the pipeline's and a routed answer
      is reported with its model and tier; with consensus a consensus failure
      is the pipeline's and the merged answer is reported with the number of
      models that answered. */
  lemma GenerateOutcome(enriched: string, useConsensus: bool, tier: Option<string>, c: SwarmConfig,
                        health: Option<Monitor>, probes: Probes, call: CallOracle, order: seq<nat>)
    requires useConsensus ==> IsOrder(order, |DefaultSelection(c)|)
    ensures var r := Generate(enriched, useConsensus, tier, c, health, probes, call, order);
            !useConsensus ==>
              var route := AutoRoute(enriched, None, tier, c, health, probes, call).result;
              && (route.Failure? ==> r == Failure(RouteFailed(route.error)))
              && (route.Success? ==> r == Success((route.value.response, ByRoute(route.value.model, route.value.tier))))
    ensures var r := Generate(enriched, useConsensus, tier, c, health, probes, call, order);
            useConsensus ==>
              var merged := RunConsensus(enriched, None, None, c, health, probes, call, order);
              && (merged.Failure? ==> r == Failure(ConsensusFailed(merged.error)))
              && (merged.Success? ==> r == Success((merged.value.merged, ByConsensus(merged.value.modelCount))))
  {
  }

  /** The result record; `len(context_results)` raises for a value without a length. */
  function Assemble(prompt: string, enrich: bool, store: bool, results: Json, enriched: string,
                    answer: Json, info: ModelInfo): (r: Result<PipelineResult, PipelineError>)
    ensures r.Success? <==> Len(results).Some?
    ensures r.Success? ==> r.value == PipelineResult(answer, prompt, if enrich then enriched else prompt, Len(results).value, info, store)
  {
    match Len(results)
    case None => Failure(CountCrash(TypeError("object of type '" + TypeName(results) + "' has no len()")))
    case Some(n) => Success(PipelineResult(answer, prompt, if enrich then enriched else prompt, n, info, store))
  }

  /** The result echoes the request: the original prompt, `stored` equal to
      `store`, and the enriched prompt equal to the original unless the
      store was consulted and gave a non-empty context, in which case it is
      the context, a "USER QUESTION" label, and the prompt. */
  lemma PipelineRecord(prompt: string, enrich: bool, store: bool, useConsensus: bool, tier: Option<string>,
                       c: SwarmConfig, health: Option<Monitor>, probes: Probes, call: CallOracle,
                       storeAnswer: Result<Json, string>, order: seq<nat>)
    requires useConsensus ==> IsOrder(order, |DefaultSelection(c)|)
    ensures var r := RunPipeline(prompt, enrich, store, useConsensus, tier, c, health, probes, call, storeAnswer, order);
            var context := FormatContext(KnowledgeResults(storeAnswer));
            r.Success? ==>
              && r.value.promptOriginal == prompt
              && r.value.stored == store
              && (!Consults(enrich, c) ==> r.value.promptEnriched == prompt && r.value.contextResultsCount == 0)
              && (Consults(enrich, c) ==>
                    && context.Success?
                    && (context.value == "" ==> r.value.promptEnriched == prompt)
                    && (context.value != "" ==> r.value.promptEnriched == context.value + "\n\nUSER QUESTION:\n" + prompt))
  {
    var r := RunPipeline(prompt, enrich, store, useConsensus, tier, c, health, probes, call, storeAnswer, order);
    if r.Success? {
      var e := Enrich(prompt, enrich, c, storeAnswer);
      RunPipelineFinishes(prompt, enrich, store, useConsensus, tier, c, health, probes, call, storeAnswer, order);
      var g := Generate(e.value.1, useConsensus, tier, c, RoutedHealth(health, probes), Later(probes), call, order);
      FinishEchoes(prompt, enrich, store, e.value.0, e.value.1, g);
      EnrichedPrompt(prompt, enrich, c, storeAnswer);
    }
  }

  /** A pipeline that got past enrichment is the generation step finished into a record. */
  lemma RunPipelineFinishes(prompt: string, enrich: bool, store: bool, useConsensus: bool, tier: Option<string>,
                            c: SwarmConfig, health: Option<Monitor>, probes: Probes, call: CallOracle,
                            storeAnswer: Result<Json, string>, order: seq<nat>)
    requires useConsensus ==> IsOrder(order, |DefaultSelection(c)|)
    ensures var e := Enrich(prompt, enrich, c, storeAnswer);
            && (e.Failure? ==> RunPipeline(prompt, enrich, store, useConsensus, tier, c, health, probes, call, storeAnswer, order)
                               == Failure(ContextCrash(e.error)))
            && (e.Success? ==> RunPipeline(prompt, enrich, store, useConsensus, tier, c, health, probes, call, storeAnswer, order)
                               == Finish(prompt, enrich, store, e.value.0, e.value.1,
                                         Generate(e.value.1, useConsensus, tier, c, RoutedHealth(health, probes), Later(probes), call, order)))
  {
  }

  /** A built record echoes the prompt, the enriched prompt when enrichment
      was asked for, and `store`. */
  lemma FinishEchoes(prompt: string, enrich: bool, store: bool, results: Json, enriched: string,
                     g: Result<(Json, ModelInfo), PipelineError>)
    ensures var r := Finish(prompt, enrich, store, results, enriched, g);
            r.Success? ==>
              && r.value.promptOriginal == prompt
              && r.value.stored == store
              && r.value.promptEnriched == (if enrich then enriched else prompt)
              && r.value.contextResultsCount == Len(results).value
  {
  }

  /** The prompt enrichment hands on, by whether the store was consulted and what its context was. */
  lemma EnrichedPrompt(prompt: string, enrich: bool, c: SwarmConfig, storeAnswer: Result<Json, string>)
    ensures var e := Enrich(prompt, enrich, c, storeAnswer);
            var context := FormatContext(KnowledgeResults(storeAnswer));
            e.Success? ==>
              && (!Consults(enrich, c) ==> e.value == (JArr([]), prompt))
              && (Consults(enrich, c) ==>
                    && context.Success?
                    && e.value.0 == KnowledgeResults(storeAnswer)
                    && e.value.1 == if context.value != "" then context.value + "\n\nUSER QUESTION:\n" + prompt else prompt)
  {
  }

  /** Without consensus the answer, model and tier are those of the route on
      the enriched prompt; when the route is exhausted the pipeline fails
      with its error. */
  lemma PipelineRouteAnswer(prompt: string, enrich: bool, store: bool, tier: Option<string>,
                            c: SwarmConfig, health: Option<Monitor>, probes: Probes, call: CallOracle,
                            storeAnswer: Result<Json, string>)
    requires Enrich(prompt, enrich, c, storeAnswer).Success?
    ensures var r := RunPipeline(prompt, enrich, store, false, tier, c, health, probes, call, storeAnswer, []);
            var enriched := Enrich(prompt, enrich, c, storeAnswer).value.1;
            var route := AutoRoute(enriched, None, tier, c, RoutedHealth(health, probes), Later(probes), call);
            && (route.result.Failure? ==> r == Failure(RouteFailed(route.result.error)))
            && (r.Success? ==>
                  && route.result.Success?
                  && r.value.answer == route.result.value.response
                  && r.value.modelInfo == ByRoute(route.result.value.model, route.result.value.tier))
  {
  }

  /** An unreachable knowledge store costs nothing: no context, the prompt
      unchanged, and the answer is the route's. */
  lemma UnreachableStore(prompt: string, store: bool, tier: Option<string>, c: SwarmConfig,
                         health: Option<Monitor>, probes: Probes, call: CallOracle, failure: string)
    requires AutoRoute(prompt, None, tier, c, RoutedHealth(health, probes), Later(probes), call).result.Success?
    ensures var r := RunPipeline(prompt, true, store, false, tier, c, health, probes, call, Failure(failure), []);
            var route := AutoRoute(prompt, None, tier, c, RoutedHealth(health, probes), Later(probes), call);
            && r.Success?
            && r.value.contextResultsCount == 0
            && r.value.promptEnriched == prompt
            && r.value.answer == route.result.value.response
  {
    assert FormatContext(JArr([])) == Success("");
    assert Enrich(prompt, true, c, Failure(failure)) == Success((JArr([]), prompt));
    var g := Generate(prompt, false, tier, c, RoutedHealth(health, probes), Later(probes), call, []);
    assert RunPipeline(prompt, true, store, false, tier, c, health, probes, call, Failure(failure), [])
           == Finish(prompt, true, store, JArr([]), prompt, g);
    FinishCounted(prompt, true, store, JArr([]), prompt, g, 0);
  }

  /** A store answering with a dict whose "results" is falsy but has no
      length (null, 0 or false) gets past formatting, and `len()` then
      raises after the answer was produced. */
  lemma FalsyResultsCrash(prompt: string, store: bool, tier: Option<string>, c: SwarmConfig,
                          health: Option<Monitor>, probes: Probes, call: CallOracle, fields: seq<(string, Json)>)
    requires Consults(true, c)
    requires Lookup(fields, "results").Some? && Lookup(fields, "results").value in {JNull, JInt(0), JBool(false)}
    requires AutoRoute(prompt, None, tier, c, RoutedHealth(health, probes), Later(probes), call).result.Success?
    ensures var v := Lookup(fields, "results").value;
            RunPipeline(prompt, true, store, false, tier, c, health, probes, call, Success(JObj(fields)), [])
            == Failure(CountCrash(TypeError("object of type '" + TypeName(v) + "' has no len()")))
  {
    var v := Lookup(fields, "results").value;
    assert Enrich(prompt, true, c, Success(JObj(fields))) == Success((v, prompt));
    var g := Generate(prompt, false, tier, c, RoutedHealth(health, probes), Later(probes), call, []);
    assert RunPipeline(prompt, true, store, false, tier, c, health, probes, call, Success(JObj(fields)), [])
           == Finish(prompt, true, store, v, prompt, g);
  }

  /** A dict item among the first five whose chosen text is a number, a
      boolean or a dict cannot be cut to 500 characters, so the whole
      pipeline raises before any model is called. */
  lemma UnsliceableTextCrash(prompt: string, store: bool, tier: Option<string>, c: SwarmConfig,
                             health: Option<Monitor>, probes: Probes, call: CallOracle, items: seq<Json>)
    requires Consults(true, c)
    requires items != [] && items[0].JObj?
    requires ChosenText(items[0].fields).JInt? || ChosenText(items[0].fields).JBool? || ChosenText(items[0].fields).JObj?
    ensures RunPipeline(prompt, true, store, false, tier, c, health, probes, call, Success(JArr(items)), [])
            == Failure(ContextCrash(ItemText(items[0]).error))
  {
    assert ItemText(items[0]).Failure?;
    ContextCrashesOnFirst(items);
    var results := KnowledgeResults(Success(JArr(items)));
    assert results == JArr(items);
    assert Enrich(prompt, true, c, Success(JArr(items))) == Failure(ItemText(items[0]).error);
  }

  /** The first item's text failing to cut makes the whole context fail. */
  lemma ContextCrashesOnFirst(items: seq<Json>)
    requires items != [] && ItemText(items[0]).Failure?
    ensures FormatContext(JArr(items)) == Failure(ItemText(items[0]).error)
  {
    assert Items(JArr(items))[0] == items[0];
    assert Lines(Items(JArr(items)), 1) == Failure(ItemText(items[0]).error);
  }

  /** The context results with the store's answer read leniently: a list's
      items, a string's characters (what `enumerate` and `len` see in it),
      and no items for anything else. */
  function KnowledgeItems(answer: Result<Json, string>): (items: seq<Json>)
    ensures KnowledgeResults(answer).JArr? ==> items == KnowledgeResults(answer).items
    ensures KnowledgeResults(answer).JStr? ==>
              var s := KnowledgeResults(answer).s;
              |items| == |s| && forall k :: 0 <= k < |s| ==> items[k] == JStr([s[k]])
    ensures !KnowledgeResults(answer).JArr? && !KnowledgeResults(answer).JStr? ==> items == []
  {
    var results := KnowledgeResults(answer);
    if results.JArr? then results.items
    else if results.JStr? then seq(|results.s|, k requires 0 <= k < |results.s| => JStr([results.s[k]]))
    else []
  }

  /** The results `pipeline` as written gets through: a string, an empty
      dict, or a list whose dict items have a string as their chosen text. */
  predicate FormatCopes(results: Json) {
    || results.JStr?
    || results == JObj([])
    || (results.JArr? && forall k :: 0 <= k < |results.items| ==>
          !results.items[k].JObj? || ChosenText(results.items[k].fields).JStr?)
  }

  /** `text[:500]` on the `str()` of the chosen value: never raises. */
  function LenientItemText(item: Json): (t: string)
    ensures |t| <= MaxText
    ensures ItemText(item).Success? && (!item.JObj? || ChosenText(item.fields).JStr?) ==> t == ItemText(item).value
  {
    if item.JObj? then Take(Str(ChosenText(item.fields)), MaxText) else Take(Str(item), MaxText)
  }

  /** The context without failure paths: the header and one line per item of
      the first five, each with at most 500 characters of text. */
  function LenientContext(items: seq<Json>): (s: string)
    ensures items == [] <==> s == ""
  {
    if items == [] then ""
    else
      var shown := Take(items, MaxItems);
      var lines := seq(|shown|, k requires 0 <= k < |shown| => Line(k + 1, LenientItemText(shown[k])));
      JoinHead(Header, lines, "\n");
      Join([Header] + lines, "\n")
  }

  /** The lenient reading never fails, agrees with `_format_context` on the
      results it handles, and the count is always defined. */
  lemma LenientContextAgrees(answer: Result<Json, string>)
    requires FormatCopes(KnowledgeResults(answer))
    ensures FormatContext(KnowledgeResults(answer)) == Success(LenientContext(KnowledgeItems(answer)))
  {
    var results := KnowledgeResults(answer);
    var items := KnowledgeItems(answer);
    if items != [] {
      var shown := Take(items, MaxItems);
      assert shown == Items(results);
      var lines := Lines(shown, 1);
      assert lines.Success?;
      assert lines.value == seq(|shown|, k requires 0 <= k < |shown| => Line(k + 1, LenientItemText(shown[k])));
    }
  }

  /** Enrichment that never raises. `_knowledge_search` already turns every
      failure of the store into no results, so a malformed answer is read
      here as no items rather than crashing the pipeline. */
  function LenientEnrich(prompt: string, enrich: bool, c: SwarmConfig, storeAnswer: Result<Json, string>): (r: (seq<Json>, string))
    ensures !Consults(enrich, c) ==> r == ([], prompt)
    ensures Consults(enrich, c) ==> r.0 == KnowledgeItems(storeAnswer)
    ensures r.0 == [] <==> r.1 == prompt
    ensures r.0 != [] ==> StartsWith(r.1, Header)
  {
    if !Consults(enrich, c) then ([], prompt)
    else
      var items := KnowledgeItems(storeAnswer);
      var context := LenientContext(items);
      if context != "" then
        JoinHead(Header, seq(|Take(items, MaxItems)|, k requires 0 <= k < |Take(items, MaxItems)| =>
                   Line(k + 1, LenientItemText(Take(items, MaxItems)[k]))), "\n");
        assert |context + "\n\nUSER QUESTION:\n" + prompt| > |prompt|;
        (items, context + "\n\nUSER QUESTION:\n" + prompt)
      else (items, prompt)
  }

  /** `pipeline` with lenient enrichment: the count is the number of items
      read, so only the generation step can fail. */
  function LenientPipeline(prompt: string, enrich: bool, store: bool, useConsensus: bool, tier: Option<string>,
                           c: SwarmConfig, health: Option<Monitor>, probes: Probes, call: CallOracle,
                           storeAnswer: Result<Json, string>, order: seq<nat>): (r: Result<PipelineResult, PipelineError>)
    requires useConsensus ==> IsOrder(order, |DefaultSelection(c)|)
    ensures var context := LenientEnrich(prompt, enrich, c, storeAnswer);
            var g := Generate(context.1, useConsensus, tier, c, RoutedHealth(health, probes), Later(probes), call, order);
            && (r.Success? <==> g.Success?)
            && (r.Failure? ==> r.error == g.error)
            && (r.Success? ==> r.value == PipelineResult(g.value.0, prompt, if enrich then context.1 else prompt,
                                                         |context.0|, g.value.1, store))
  {
    var context := LenientEnrich(prompt, enrich, c, storeAnswer);
    var answer :- Generate(context.1, useConsensus, tier, c, RoutedHealth(health, probes), Later(probes), call, order);
    Success(PipelineResult(answer.0, prompt, if enrich then context.1 else prompt, |context.0|, answer.1, store))
  }

  /** With lenient enrichment a store answering `{"results": null}` (or 0,
      or false) is no answer: the routed answer comes back, unenriched. */
  lemma LenientPipelineSurvivesFalsyResults(prompt: string, store: bool, tier: Option<string>, c: SwarmConfig,
                                            health: Option<Monitor>, probes: Probes, call: CallOracle, fields: seq<(string, Json)>)
    requires Consults(true, c)
    requires Lookup(fields, "results").Some? && Lookup(fields, "results").value in {JNull, JInt(0), JBool(false)}
    requires AutoRoute(prompt, None, tier, c, RoutedHealth(health, probes), Later(probes), call).result.Success?
    ensures var r := LenientPipeline(prompt, true, store, false, tier, c, health, probes, call, Success(JObj(fields)), []);
            var route := AutoRoute(prompt, None, tier, c, RoutedHealth(health, probes), Later(probes), call).result;
            && r.Success?
            && r.value.answer == route.value.response
            && r.value.promptEnriched == prompt
            && r.value.contextResultsCount == 0
  {
    assert KnowledgeItems(Success(JObj(fields))) == [];
  }

  /** With lenient enrichment the store never decides whether the pipeline
      answers: it answers exactly when the route on the enriched prompt does. */
  lemma LenientPipelineAnswersIffRouted(prompt: string, enrich: bool, store: bool, tier: Option<string>, c: SwarmConfig,
                                        health: Option<Monitor>, probes: Probes, call: CallOracle, storeAnswer: Result<Json, string>)
    ensures var enriched := LenientEnrich(prompt, enrich, c, storeAnswer).1;
            var route := AutoRoute(enriched, None, tier, c, RoutedHealth(health, probes), Later(probes), call).result;
            var r := LenientPipeline(prompt, enrich, store, false, tier, c, health, probes, call, storeAnswer, []);
            && (r.Success? <==> route.Success?)
            && (r.Success? ==> r.value.answer == route.value.response)
  {
  }

  /** Where `pipeline` as written copes with the store's answer, lenient
      enrichment gives the same prompt and as many items as the results'
      length; the results themselves when they are a list. */
  lemma LenientEnrichAgrees(prompt: string, enrich: bool, c: SwarmConfig, storeAnswer: Result<Json, string>)
    requires FormatCopes(KnowledgeResults(storeAnswer))
    ensures var lenient := LenientEnrich(prompt, enrich, c, storeAnswer);
            var e := Enrich(prompt, enrich, c, storeAnswer);
            && e.Success?
            && e.value.1 == lenient.1
            && Len(e.value.0) == Some(|lenient.0|)
            && (!Consults(enrich, c) || KnowledgeResults(storeAnswer).JArr? ==> e.value.0 == JArr(lenient.0))
  {
    if Consults(enrich, c) {
      LenientContextAgrees(storeAnswer);
    } else {
      assert FormatContext(JArr([])) == Success("");
    }
  }

  /** Where `pipeline` as written copes with the store's answer (a list of
      string, an empty dict, or a list of items whose chosen texts are
      strings), the lenient pipeline gives the very same result. */
  lemma LenientPipelineAgrees(prompt: string, enrich: bool, store: bool, useConsensus: bool, tier: Option<string>,
                              c: SwarmConfig, health: Option<Monitor>, probes: Probes, call: CallOracle,
                              storeAnswer: Result<Json, string>, order: seq<nat>)
    requires useConsensus ==> IsOrder(order, |DefaultSelection(c)|)
    requires FormatCopes(KnowledgeResults(storeAnswer))
    ensures RunPipeline(prompt, enrich, store, useConsensus, tier, c, health, probes, call, storeAnswer, order)
            == LenientPipeline(prompt, enrich, store, useConsensus, tier, c, health, probes, call, storeAnswer, order)
  {
    LenientEnrichAgrees(prompt, enrich, c, storeAnswer);
    var lenient := LenientEnrich(prompt, enrich, c, storeAnswer);
    var e := Enrich(prompt, enrich, c, storeAnswer).value;
    var g := Generate(lenient.1, useConsensus, tier, c, RoutedHealth(health, probes), Later(probes), call, order);
    assert RunPipeline(prompt, enrich, store, useConsensus, tier, c, health, probes, call, storeAnswer, order)
           == Finish(prompt, enrich, store, e.0, e.1, g);
    FinishCounted(prompt, enrich, store, e.0, e.1, g, |lenient.0|);
  }
}
