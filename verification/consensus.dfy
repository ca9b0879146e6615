/** Multi-model consensus: every selected model is called once (the calls
    complete in some order), the successful answers are folded into one
    synthesis prompt that is routed on tier T2, and when that route fails the
    answers are concatenated instead. */
module Consensus {
  import opened Wrappers
  import opened Text
  import opened PyJson
  import opened Config
  import opened Health
  import opened Router
  import opened Completion

  /** Position of a model tier in the default selection. */
  function TierIndex(t: string): nat {
    if t == "fast" then 0 else if t == "power" then 1 else 2
  }

  /** The first registered model of a tier, as a list of at most one. */
  function FirstOfTier(c: SwarmConfig, t: string): (r: seq<ModelEntry>)
    ensures |r| <= 1
    ensures |r| == 1 <==> GetTierModels(c, t) != []
    ensures |r| == 1 ==> r[0] == GetTierModels(c, t)[0] && r[0].tier == t
  {
    var ms := GetTierModels(c, t);
    if ms == [] then [] else [ms[0]]
  }

  /** The default selection: the first registered model of fast, power and
      deep, in that order, skipping tiers with no model. */
  function DefaultSelection(c: SwarmConfig): (sel: seq<ModelEntry>)
    ensures |sel| <= 3
  {
    FirstOfTier(c, "fast") + FirstOfTier(c, "power") + FirstOfTier(c, "deep")
  }

  /** Each selected model is the first registered model of its tier, and
      the tiers appear in the order fast, power, deep. */
  lemma DefaultSelectionPicksFirsts(c: SwarmConfig)
    ensures var sel := DefaultSelection(c);
            && (forall k :: 0 <= k < |sel| ==>
                  && sel[k].tier in {"fast", "power", "deep"}
                  && GetTierModels(c, sel[k].tier) != []
                  && sel[k] == GetTierModels(c, sel[k].tier)[0])
            && (forall a, b :: 0 <= a < b < |sel| ==> TierIndex(sel[a].tier) < TierIndex(sel[b].tier))
  {
    var f, p, d := FirstOfTier(c, "fast"), FirstOfTier(c, "power"), FirstOfTier(c, "deep");
    var sel := f + p + d;
    assert forall k :: 0 <= k < |sel| ==> sel[k] in f || sel[k] in p || sel[k] in d;
  }

  /** Every tier with a registered model is represented in the selection. */
  lemma DefaultSelectionCovers(c: SwarmConfig, t: string)
    requires t in {"fast", "power", "deep"} && GetTierModels(c, t) != []
    ensures exists k :: 0 <= k < |DefaultSelection(c)| && DefaultSelection(c)[k].tier == t
  {
    var f, p, d := FirstOfTier(c, "fast"), FirstOfTier(c, "power"), FirstOfTier(c, "deep");
    var sel := f + p + d;
    assert DefaultSelection(c) == sel;
    if t == "fast" {
      assert sel[0].tier == t;
    } else if t == "power" {
      assert sel[|f|] == p[0] && p[0].tier == t;
    } else {
      assert sel[|f| + |p|] == d[0] && d[0].tier == t;
    }
  }

  /** `models` when the caller gives a list, else the default selection. */
  function Selection(c: SwarmConfig, models: Option<seq<ModelEntry>>): seq<ModelEntry> {
    if models.Some? then models.value else DefaultSelection(c)
  }

  /** One entry of the per-model results. `response` is JNull when there is
      no answer. */
  datatype Record = Record(model: string, response: Json, error: Option<string>)

  /** What the per-model worker did: its record, and the request it sent, if any. */
  datatype Dispatch = Dispatch(record: Record, sent: Option<CallRequest>)

  /** The per-model worker: a down endpoint short-circuits to an error
      record; otherwise one call with the entry's own tier timeout. */
  function CallEntry(c: SwarmConfig, messages: seq<Message>, health: Option<Monitor>, e: ModelEntry, call: CallOracle): (d: Dispatch)
    ensures d.record.model == e.modelId
    ensures d.sent.None? <==> !Reachable(health, e)
    ensures d.sent.None? ==> d.record == Record(e.modelId, JNull, Some(e.endpoint.name + " unavailable"))
    ensures d.sent.Some? ==> d.sent.value == CallRequest(e.modelId, messages, e.endpoint, GetTierTimeout(c, e.tier))
    ensures d.record.error.None? <==> d.sent.Some? && call(d.sent.value).Success?
    ensures d.record.error.None? ==> d.record.response == ExtractText(call(d.sent.value).value)
    ensures Truthy(d.record.response) ==> d.record.error.None?
  {
    if !Reachable(health, e) then
      Dispatch(Record(e.modelId, JNull, Some(e.endpoint.name + " unavailable")), None)
    else
      var req := CallRequest(e.modelId, messages, e.endpoint, GetTierTimeout(c, e.tier));
      match call(req)
      case Success(response) => Dispatch(Record(e.modelId, ExtractText(response), None), Some(req))
      case Failure(err) => Dispatch(Record(e.modelId, JNull, Some(err)), Some(req))
  }

  /** The records in completion order. */
  function Collected(c: SwarmConfig, messages: seq<Message>, health: Option<Monitor>, sel: seq<ModelEntry>,
                     call: CallOracle, order: seq<nat>): (rs: seq<Record>)
    requires IsOrder(order, |sel|)
    ensures |rs| == |sel|
    ensures forall i :: 0 <= i < |rs| ==> rs[i] == CallEntry(c, messages, health, sel[order[i]], call).record
  {
    seq(|order|, i requires 0 <= i < |order| => CallEntry(c, messages, health, sel[order[i]], call).record)
  }

  /** The records in selection order, one per selected model. */
  function Records(c: SwarmConfig, messages: seq<Message>, health: Option<Monitor>, sel: seq<ModelEntry>,
                   call: CallOracle): seq<Record>
  {
    seq(|sel|, k requires 0 <= k < |sel| => CallEntry(c, messages, health, sel[k], call).record)
  }

  /** Whatever the completion order, the collected records are those of the
      selected models, each exactly once. */
  lemma CollectedPermutes(c: SwarmConfig, messages: seq<Message>, health: Option<Monitor>, sel: seq<ModelEntry>,
                          call: CallOracle, order: seq<nat>)
    requires IsOrder(order, |sel|)
    ensures multiset(Collected(c, messages, health, sel, call, order)) == multiset(Records(c, messages, health, sel, call))
  {
    var recs := Records(c, messages, health, sel, call);
    assert Collected(c, messages, health, sel, call, order) == Permute(recs, order);
    PermuteMultiset(recs, order);
  }

  /** `[r for r in results if r.get("response")]`. */
  function Successful(rs: seq<Record>): (s: seq<Record>)
    ensures |s| <= |rs|
    ensures forall k :: 0 <= k < |s| ==> Truthy(s[k].response)
  {
    if rs == [] then []
    else if Truthy(rs[0].response) then [rs[0]] + Successful(rs[1..])
    else Successful(rs[1..])
  }

  /** Filtering distributes over concatenation, so it keeps the relative order. */
  lemma {:induction false} SuccessfulAppend(a: seq<Record>, b: seq<Record>)
    ensures Successful(a + b) == Successful(a) + Successful(b)
  {
    if a == [] {
      assert a + b == b;
    } else {
      assert (a + b)[0] == a[0] && (a + b)[1..] == a[1..] + b;
      SuccessfulAppend(a[1..], b);
    }
  }

  /** The filter of three records. */
  lemma SuccessfulOfThree(x: Record, y: Record, z: Record)
    ensures Successful([x, y, z]) ==
              (if Truthy(x.response) then [x] else []) + (if Truthy(y.response) then [y] else [])
              + (if Truthy(z.response) then [z] else [])
  {
    assert [x, y, z] == [x] + ([y] + [z]);
    SuccessfulAppend([x], [y] + [z]);
    SuccessfulAppend([y], [z]);
    assert [x][1..] == [] && [y][1..] == [] && [z][1..] == [];
  }

  /** The filter is empty exactly when no record has a truthy response. */
  lemma {:induction false} SuccessfulEmpty(rs: seq<Record>)
    ensures Successful(rs) == [] <==> forall i :: 0 <= i < |rs| ==> !Truthy(rs[i].response)
  {
    if rs != [] {
      SuccessfulEmpty(rs[1..]);
      assert forall i :: 1 <= i < |rs| ==> rs[i] == rs[1..][i - 1];
    }
  }

  const AllFailed: string := "All consensus models failed."

  const SynthesisHeader: string :=
    "You are a synthesis agent. Multiple AI models answered the same question.\n"
    + "Combine their insights into a single, comprehensive, non-redundant answer.\n\n"
    + "ORIGINAL QUESTION:\n"

  /** The block presenting the answer numbered `i`. */
  function Block(i: nat, r: Record): string {
    "\n--- Model " + IntToString(i) + ": " + r.model + " ---\n" + Str(r.response) + "\n"
  }

  /** The blocks of `rs`, numbered from `i`. */
  function Blocks(rs: seq<Record>, i: nat): string
    decreases |rs|
  {
    if rs == [] then "" else Block(i, rs[0]) + Blocks(rs[1..], i + 1)
  }

  /** The synthesis prompt: the question, then every successful answer numbered from 1. */
  function SynthesisPrompt(prompt: string, successful: seq<Record>): string {
    SynthesisHeader + prompt + "\n\nMODEL RESPONSES:\n" + Blocks(successful, 1) + "\nSYNTHESIZED ANSWER:"
  }

  /** The `k`-th answer (from 0) appears in the blocks under number `i + k`. */
  lemma {:induction false} BlocksContain(rs: seq<Record>, i: nat, k: nat)
    requires k < |rs|
    ensures Contains(Blocks(rs, i), Block(i + k, rs[k]))
  {
    var head, tail := Block(i, rs[0]), Blocks(rs[1..], i + 1);
    assert Blocks(rs, i) == head + tail;
    if k == 0 {
      ContainsSelf(head);
      ContainsLeft(head, tail, head);
    } else {
      BlocksContain(rs[1..], i + 1, k - 1);
      assert rs[1..][k - 1] == rs[k];
      ContainsRight(head, tail, Block(i + k, rs[k]));
    }
  }

  /** The synthesis prompt starts with the original question and presents
      every successful answer, the `k`-th under number `k + 1`. */
  lemma SynthesisPresentsAnswers(prompt: string, successful: seq<Record>, k: nat)
    requires k < |successful|
    ensures StartsWith(SynthesisPrompt(prompt, successful), SynthesisHeader + prompt)
    ensures Contains(SynthesisPrompt(prompt, successful), Block(k + 1, successful[k]))
  {
    BlocksContain(successful, 1, k);
    Framed(SynthesisHeader + prompt, "\n\nMODEL RESPONSES:\n", Blocks(successful, 1), "\nSYNTHESIZED ANSWER:",
           Block(k + 1, successful[k]));
  }

  /** Text placed between a head and a tail keeps what it contains, and the
      whole starts with the head. */
  lemma Framed(head: string, mid: string, body: string, tail: string, x: string)
    requires Contains(body, x)
    ensures StartsWith(head + mid + body + tail, head)
    ensures Contains(head + mid + body + tail, x)
  {
    ContainsWithin(head + mid, body, tail, x);
    StartsWithAppend(head, mid + body + tail);
    assert head + (mid + body + tail) == head + mid + body + tail;
  }

  /** One answer labelled with its model, as the fallback shows it. */
  function Labelled(r: Record): string {
    "[" + r.model + "]\n" + Str(r.response)
  }

  /** The fallback when synthesis fails: the labelled answers, separated by a rule. */
  function Concatenation(successful: seq<Record>): string {
    Join(seq(|successful|, k requires 0 <= k < |successful| => Labelled(successful[k])), "\n\n---\n\n")
  }

  /** The fallback presents every successful answer, and a single answer alone. */
  lemma ConcatenationPresentsAnswers(successful: seq<Record>, k: nat)
    requires k < |successful|
    ensures Contains(Concatenation(successful), Labelled(successful[k]))
    ensures |successful| == 1 ==> Concatenation(successful) == Labelled(successful[0])
  {
    var parts := seq(|successful|, k requires 0 <= k < |successful| => Labelled(successful[k]));
    JoinContains(parts, "\n\n---\n\n", k);
  }

  /** A consensus answer: the merged answer, every collected record in
      completion order, the number of successful answers, and the
      synthesis route. */
  datatype ConsensusResult = ConsensusResult(merged: Json, individual: seq<Record>, modelCount: nat, synthesis: Routed)

  /** `consensus`: refresh the monitor, call every selected model, and
      synthesise the successful answers; `probes(0)` is this refresh and
      the synthesis route refreshes with the rounds after it. */
  function RunConsensus(prompt: string, models: Option<seq<ModelEntry>>, system: Option<string>, c: SwarmConfig,
                        health: Option<Monitor>, probes: Probes, call: CallOracle, order: seq<nat>): Result<ConsensusResult, string>
    requires IsOrder(order, |Selection(c, models)|)
  {
    var h := RoutedHealth(health, probes);
    var results := Collected(c, Messages(system, prompt), h, Selection(c, models), call, order);
    var successful := Successful(results);
    if successful == [] then Failure(AllFailed)
    else
      var synthesis := AutoRoute(SynthesisPrompt(prompt, successful), None, Some("T2"), c, h, Later(probes), call);
      var merged := if synthesis.result.Success? then synthesis.result.value.response else JStr(Concatenation(successful));
      Success(ConsensusResult(merged, results, |successful|, synthesis))
  }

  /** Consensus fails exactly when no selected model gave a truthy answer,
      whatever the completion order. */
  lemma ConsensusFailsIffNoAnswer(prompt: string, models: Option<seq<ModelEntry>>, system: Option<string>, c: SwarmConfig,
                                  health: Option<Monitor>, probes: Probes, call: CallOracle, order: seq<nat>)
    requires IsOrder(order, |Selection(c, models)|)
    ensures var sel := Selection(c, models);
            var h := RoutedHealth(health, probes);
            var r := RunConsensus(prompt, models, system, c, health, probes, call, order);
            && (r.Failure? <==> forall k :: 0 <= k < |sel| ==> !Truthy(CallEntry(c, Messages(system, prompt), h, sel[k], call).record.response))
            && (r.Failure? ==> r.error == AllFailed)
  {
    var sel := Selection(c, models);
    var h := RoutedHealth(health, probes);
    var results := Collected(c, Messages(system, prompt), h, sel, call, order);
    SuccessfulEmpty(results);
    if forall i :: 0 <= i < |results| ==> !Truthy(results[i].response) {
      forall k | 0 <= k < |sel| ensures !Truthy(CallEntry(c, Messages(system, prompt), h, sel[k], call).record.response) {
        assert Listed(order, k);
        var i :| 0 <= i < |sel| && order[i] == k;
        assert results[i] == CallEntry(c, Messages(system, prompt), h, sel[k], call).record;
      }
    }
  }

  /** A consensus answer keeps every record, one per selected model in
      completion order, counts the truthy ones, synthesises on tier T2 from
      exactly those, and falls back to their concatenation when the
      synthesis route fails. */
  lemma ConsensusAnswer(prompt: string, models: Option<seq<ModelEntry>>, system: Option<string>, c: SwarmConfig,
                        health: Option<Monitor>, probes: Probes, call: CallOracle, order: seq<nat>)
    requires IsOrder(order, |Selection(c, models)|)
    ensures var sel := Selection(c, models);
            var h := RoutedHealth(health, probes);
            var r := RunConsensus(prompt, models, system, c, health, probes, call, order);
            r.Success? ==>
              var res := r.value;
              var successful := Successful(res.individual);
              && |res.individual| == |sel|
              && (forall i :: 0 <= i < |sel| ==> res.individual[i] == CallEntry(c, Messages(system, prompt), h, sel[order[i]], call).record)
              && res.modelCount == |successful| > 0
              && res.synthesis == AutoRoute(SynthesisPrompt(prompt, successful), None, Some("T2"), c, h, Later(probes), call)
              && (res.synthesis.result.Success? ==> res.merged == res.synthesis.result.value.response)
              && (res.synthesis.result.Failure? ==> res.merged == JStr(Concatenation(successful)))
  {
  }

  /** No request is ever sent to a model whose endpoint the refreshed
      monitor reports down. */
  lemma DownModelsNotCalled(c: SwarmConfig, messages: seq<Message>, health: Option<Monitor>, e: ModelEntry, call: CallOracle)
    requires health.Some? && !IsUp(health.value, e.endpoint.name)
    ensures CallEntry(c, messages, health, e, call).sent.None?
    ensures CallEntry(c, messages, health, e, call).record.error == Some(e.endpoint.name + " unavailable")
  {
  }

  /** Three models where the middle one fails and the others answer: all
      three records are kept, in completion order, and exactly the two
      answers are counted and synthesised, in the order they completed. */
  lemma PartialFailure(prompt: string, a: ModelEntry, b: ModelEntry, d: ModelEntry, c: SwarmConfig,
                       probes: Probes, call: CallOracle, order: seq<nat>)
    requires IsOrder(order, 3)
    requires call(CallRequest(a.modelId, Messages(None, prompt), a.endpoint, GetTierTimeout(c, a.tier))).Success?
    requires Truthy(ExtractText(call(CallRequest(a.modelId, Messages(None, prompt), a.endpoint, GetTierTimeout(c, a.tier))).value))
    requires call(CallRequest(b.modelId, Messages(None, prompt), b.endpoint, GetTierTimeout(c, b.tier))).Failure?
    requires call(CallRequest(d.modelId, Messages(None, prompt), d.endpoint, GetTierTimeout(c, d.tier))).Success?
    requires Truthy(ExtractText(call(CallRequest(d.modelId, Messages(None, prompt), d.endpoint, GetTierTimeout(c, d.tier))).value))
    ensures var r := RunConsensus(prompt, Some([a, b, d]), None, c, None, probes, call, order);
            var ra := CallEntry(c, Messages(None, prompt), None, a, call).record;
            var rd := CallEntry(c, Messages(None, prompt), None, d, call).record;
            && r.Success?
            && |r.value.individual| == 3
            && r.value.modelCount == 2
            && Successful(r.value.individual) == (if order[0] == 2 || (order[1] == 2 && order[0] == 1) then [rd, ra] else [ra, rd])
            && (forall i :: 0 <= i < 3 && order[i] == 1 ==> r.value.individual[i].error.Some?)
  {
    var sel := [a, b, d];
    var ms := Messages(None, prompt);
    assert Truthy(CallEntry(c, ms, None, a, call).record.response);
    assert Truthy(CallEntry(c, ms, None, d, call).record.response);
    PartialFailureRecords(c, ms, a, b, d, call, order);
    assert RoutedHealth(None, probes) == None;
    var results := Collected(c, ms, None, sel, call, order);
    assert Successful(results) != [];
    var r := RunConsensus(prompt, Some(sel), None, c, None, probes, call, order);
    assert r.Success? && r.value.individual == results && r.value.modelCount == |Successful(results)|;
  }

  /** The collected records of the three-model scenario. */
  lemma PartialFailureRecords(c: SwarmConfig, ms: seq<Message>, a: ModelEntry, b: ModelEntry, d: ModelEntry,
                              call: CallOracle, order: seq<nat>)
    requires IsOrder(order, 3)
    requires Truthy(CallEntry(c, ms, None, a, call).record.response)
    requires call(CallRequest(b.modelId, ms, b.endpoint, GetTierTimeout(c, b.tier))).Failure?
    requires Truthy(CallEntry(c, ms, None, d, call).record.response)
    ensures var results := Collected(c, ms, None, [a, b, d], call, order);
            var ra, rd := CallEntry(c, ms, None, a, call).record, CallEntry(c, ms, None, d, call).record;
            && Successful(results) == (if order[0] == 2 || (order[1] == 2 && order[0] == 1) then [rd, ra] else [ra, rd])
            && (forall i :: 0 <= i < 3 && order[i] == 1 ==> results[i].error.Some?)
  {
    var results := Collected(c, ms, None, [a, b, d], call, order);
    var ra, rb, rd := CallEntry(c, ms, None, a, call).record, CallEntry(c, ms, None, b, call).record, CallEntry(c, ms, None, d, call).record;
    assert !Truthy(rb.response) && rb.error.Some?;
    var byIndex := [ra, rb, rd];
    assert results[0] == byIndex[order[0]] && results[1] == byIndex[order[1]] && results[2] == byIndex[order[2]];
    assert results == [byIndex[order[0]], byIndex[order[1]], byIndex[order[2]]];
    FilterThree(byIndex, order);
  }

  /** Filtering three records, the middle one failed, in any completion order. */
  lemma FilterThree(xs: seq<Record>, order: seq<nat>)
    requires |xs| == 3 && IsOrder(order, 3)
    requires Truthy(xs[0].response) && !Truthy(xs[1].response) && Truthy(xs[2].response)
    ensures Successful([xs[order[0]], xs[order[1]], xs[order[2]]])
            == (if order[0] == 2 || (order[1] == 2 && order[0] == 1) then [xs[2], xs[0]] else [xs[0], xs[2]])
  {
    SuccessfulOfThree(xs[order[0]], xs[order[1]], xs[order[2]]);
    OrdersOfThree(order);
  }

  /** The six completion orders of three calls. */
  lemma OrdersOfThree(order: seq<nat>)
    requires IsOrder(order, 3)
    ensures order in {[0, 1, 2], [0, 2, 1], [1, 0, 2], [1, 2, 0], [2, 0, 1], [2, 1, 0]}
  {
    assert order == [order[0], order[1], order[2]];
  }
}
