/** The auto-router: classify the prompt (unless a tier is forced), then
    walk a fixed tier fallback order and, within each tier, the registered
    models in registration order, skipping models whose endpoint the health
    monitor reports down, until one call succeeds. */
module Router {
  import opened Wrappers
  import opened Text
  import opened PyJson
  import opened Config
  import opened Health

  datatype Message = Message(role: string, content: string)

  /** One chat-completion request as the router issues it. */
  datatype CallRequest = CallRequest(model: string, messages: seq<Message>, endpoint: Endpoint, timeout: Timeout)

  /** The backend's answer to a request: the decoded JSON envelope, or the
      text of the exception the call raised (HTTP error, timeout, ...). */
  type CallOracle = CallRequest -> Result<Json, string>

  /** The probe rounds of successive health refreshes. */
  type Probes = nat -> ProbeRound

  /** The probe rounds left after the first one is used. */
  function Later(probes: Probes): Probes {
    k => probes(k + 1)
  }

  /** The chat messages: a system message when a non-empty one is given, then the user prompt. */
  function Messages(system: Option<string>, prompt: string): (ms: seq<Message>)
    ensures |ms| >= 1 && ms[|ms| - 1] == Message("user", prompt)
    ensures |ms| == 2 <==> system.Some? && system.value != ""
    ensures |ms| == 2 ==> ms[0] == Message("system", system.value)
  {
    if system.Some? && system.value != "" then [Message("system", system.value), Message("user", prompt)]
    else [Message("user", prompt)]
  }

  /** `response["choices"][0]["message"]["content"]`. */
  function ContentPath(response: Json): Result<Json, PyError> {
    var choices :- Index(response, "choices");
    var first :- First(choices);
    var message :- Index(first, "message");
    Index(message, "content")
  }

  /** `_extract_text`: the message content when the envelope has that shape,
      else the envelope rendered with `str()`. It never fails. */
  function ExtractText(response: Json): (text: Json)
    ensures ContentPath(response).Success? ==> text == ContentPath(response).value
    ensures ContentPath(response).Failure? ==> text == JStr(Str(response))
  {
    match ContentPath(response)
    case Success(content) => content
    case Failure(e) =>
      // every failure of the path is a KeyError, IndexError or TypeError, all caught
      JStr(Str(response))
  }

  /** The standard envelope carrying one choice with the given content. */
  function Envelope(content: Json): Json {
    JObj([("choices", JArr([JObj([("message", JObj([("role", JStr("assistant")), ("content", content)]))])]))])
  }

  /** Extraction recovers the content of a well-formed envelope. */
  lemma ExtractEnvelope(content: Json)
    ensures ExtractText(Envelope(content)) == content
  {
    var msg := JObj([("role", JStr("assistant")), ("content", content)]);
    var first := JObj([("message", msg)]);
    assert Index(Envelope(content), "choices") == Success(JArr([first]));
    assert Index(first, "message") == Success(msg);
    assert msg.fields[1..] == [("content", content)];
    assert Lookup(msg.fields, "content") == Some(content);
    assert ContentPath(Envelope(content)) == Success(content);
  }

  /** An object without "choices" is not an envelope: its text is its `str()`. */
  lemma ExtractWithoutChoices(fields: seq<(string, Json)>)
    requires Lookup(fields, "choices").None?
    ensures ExtractText(JObj(fields)) == JStr(Repr(JObj(fields)))
  {
  }

  /** The tier fallback order for a complexity tier; anything unknown searches "fast" only. */
  function SearchOrder(tier: string): (order: seq<string>)
    ensures |order| >= 1 && order[|order| - 1] == "fast"
    ensures forall i :: 0 <= i < |order| ==> order[i] in {"fast", "power", "deep"}
    ensures tier == "T3" ==> order == ["deep", "power", "fast"]
    ensures tier == "T2" ==> order == ["power", "fast"]
    ensures tier !in {"T2", "T3"} ==> order == ["fast"]
  {
    if tier == "T2" then ["power", "fast"]
    else if tier == "T3" then ["deep", "power", "fast"]
    else ["fast"]
  }

  /** `tier or classify_complexity(prompt)`: a forced non-empty tier wins over the classifier. */
  function DetectTier(c: SwarmConfig, prompt: string, forced: Option<string>): (t: string)
    ensures forced.Some? && forced.value != "" ==> t == forced.value
    ensures !(forced.Some? && forced.value != "") ==> t in {"T1", "T2", "T3"} && t == ClassifyComplexity(c, prompt)
  {
    if forced.Some? && forced.value != "" then forced.value else ClassifyComplexity(c, prompt)
  }

  /** A model the router may call, with the search tier it was found under. */
  datatype Candidate = Candidate(entry: ModelEntry, tier: string)

  /** `not health or health.is_up(entry.endpoint.name)`. */
  predicate Reachable(health: Option<Monitor>, e: ModelEntry) {
    health.None? || IsUp(health.value, e.endpoint.name)
  }

  /** The reachable entries of one tier, in registration order. */
  function TierCandidates(es: seq<ModelEntry>, tier: string, health: Option<Monitor>): (cs: seq<Candidate>)
    ensures |cs| <= |es|
    ensures forall k :: 0 <= k < |cs| ==> cs[k].tier == tier && Reachable(health, cs[k].entry) && cs[k].entry in es
  {
    if es == [] then []
    else
      var rest := TierCandidates(es[1..], tier, health);
      if Reachable(health, es[0]) then [Candidate(es[0], tier)] + rest else rest
  }

  /** Every reachable model of every tier of the search order, tier by tier. */
  function Candidates(c: SwarmConfig, order: seq<string>, health: Option<Monitor>): (cs: seq<Candidate>)
    ensures forall k :: 0 <= k < |cs| ==>
              cs[k].tier in order && cs[k].entry.tier == cs[k].tier && Reachable(health, cs[k].entry)
  {
    if order == [] then []
    else TierCandidates(GetTierModels(c, order[0]), order[0], health) + Candidates(c, order[1..], health)
  }

  /** A tier's candidates are exactly its reachable entries, in registration
      order: an increasing index list picks them out of the entries, and an
      entry is picked iff it is reachable. */
  lemma {:induction false} TierCandidatesIndices(es: seq<ModelEntry>, tier: string, health: Option<Monitor>)
    returns (idx: seq<nat>)
    ensures PicksReachable(es, tier, health, idx)
  {
    if es == [] {
      idx := [];
    } else {
      var rest := TierCandidatesIndices(es[1..], tier, health);
      var shifted := Shift(rest);
      ShiftedPicks(es, tier, health, rest);
      if Reachable(health, es[0]) {
        idx := [0] + shifted;
        ConsPicks(es, tier, health, shifted);
      } else {
        idx := shifted;
        assert TierCandidates(es, tier, health) == TierCandidates(es[1..], tier, health);
      }
    }
  }

  /** `idx` picks exactly the reachable entries of `es`, in order, as the tier's candidates. */
  predicate PicksReachable(es: seq<ModelEntry>, tier: string, health: Option<Monitor>, idx: seq<nat>) {
    var cs := TierCandidates(es, tier, health);
    && |idx| == |cs|
    && Increasing(idx)
    && (forall k :: 0 <= k < |idx| ==> idx[k] < |es| && cs[k] == Candidate(es[idx[k]], tier))
    && (forall i :: 0 <= i < |es| ==> (Reachable(health, es[i]) <==> i in idx))
  }

  /** The indices of the tail's candidates, shifted by one, point into `es`
      and pick every reachable entry after the first. */
  lemma ShiftedPicks(es: seq<ModelEntry>, tier: string, health: Option<Monitor>, rest: seq<nat>)
    requires es != [] && PicksReachable(es[1..], tier, health, rest)
    ensures var shifted := Shift(rest);
            var tail := TierCandidates(es[1..], tier, health);
            && |shifted| == |tail|
            && Increasing(shifted)
            && (forall k :: 0 <= k < |shifted| ==> 0 < shifted[k] < |es| && tail[k] == Candidate(es[shifted[k]], tier))
            && (forall i :: 0 < i < |es| ==> (Reachable(health, es[i]) <==> i in shifted))
  {
    var shifted := Shift(rest);
    var tail := TierCandidates(es[1..], tier, health);
    forall k | 0 <= k < |shifted|
      ensures 0 < shifted[k] < |es| && tail[k] == Candidate(es[shifted[k]], tier)
    {
      assert es[1..][rest[k]] == es[rest[k] + 1];
    }
    forall i | 0 < i < |es|
      ensures Reachable(health, es[i]) <==> i in shifted
    {
      assert es[1..][i - 1] == es[i];
      ShiftMember(rest, i);
    }
  }

  /** A reachable first entry goes in front of the tail's shifted indices. */
  lemma ConsPicks(es: seq<ModelEntry>, tier: string, health: Option<Monitor>, shifted: seq<nat>)
    requires es != [] && Reachable(health, es[0])
    requires var tail := TierCandidates(es[1..], tier, health);
             && |shifted| == |tail|
             && Increasing(shifted)
             && (forall k :: 0 <= k < |shifted| ==> 0 < shifted[k] < |es| && tail[k] == Candidate(es[shifted[k]], tier))
             && (forall i :: 0 < i < |es| ==> (Reachable(health, es[i]) <==> i in shifted))
    ensures PicksReachable(es, tier, health, [0] + shifted)
  {
    var idx := [0] + shifted;
    var cs := TierCandidates(es, tier, health);
    var tail := TierCandidates(es[1..], tier, health);
    assert cs == [Candidate(es[0], tier)] + tail;
    ConsIncreasing(shifted);
    ConsIndices(es, tier, tail, shifted);
    ConsMembers(|es|, shifted);
  }

  lemma ConsIndices(es: seq<ModelEntry>, tier: string, tail: seq<Candidate>, shifted: seq<nat>)
    requires es != [] && |shifted| == |tail|
    requires forall k :: 0 <= k < |shifted| ==> 0 < shifted[k] < |es| && tail[k] == Candidate(es[shifted[k]], tier)
    ensures var idx, cs := [0] + shifted, [Candidate(es[0], tier)] + tail;
            forall k :: 0 <= k < |idx| ==> idx[k] < |es| && cs[k] == Candidate(es[idx[k]], tier)
  {
    var idx, cs := [0] + shifted, [Candidate(es[0], tier)] + tail;
    forall k | 0 < k < |idx| ensures idx[k] < |es| && cs[k] == Candidate(es[idx[k]], tier) {
      assert idx[k] == shifted[k - 1] && cs[k] == tail[k - 1];
    }
  }

  lemma ConsMembers(n: nat, shifted: seq<nat>)
    ensures forall i :: 0 <= i < n ==> (i in [0] + shifted <==> i == 0 || i in shifted)
  {
  }

  /** Every reachable model of every tier of the order is a candidate. */
  lemma {:induction false} CandidatesComplete(c: SwarmConfig, order: seq<string>, health: Option<Monitor>, i: nat, e: ModelEntry)
    requires i < |order| && e in GetTierModels(c, order[i]) && Reachable(health, e)
    ensures Candidate(e, order[i]) in Candidates(c, order, health)
  {
    var cs := Candidates(c, order, health);
    var head := TierCandidates(GetTierModels(c, order[0]), order[0], health);
    assert cs == head + Candidates(c, order[1..], health);
    if i == 0 {
      var es := GetTierModels(c, order[0]);
      var idx := TierCandidatesIndices(es, order[0], health);
      var j :| 0 <= j < |es| && es[j] == e;
      var k :| 0 <= k < |idx| && idx[k] == j;
      assert cs[k] == head[k];
    } else {
      assert order[1..][i - 1] == order[i];
      CandidatesComplete(c, order[1..], health, i - 1, e);
    }
  }

  /** No tier is named twice. */
  predicate Distinct(order: seq<string>) {
    forall i, j :: 0 <= i < j < |order| ==> order[i] != order[j]
  }

  /** The search orders name each tier once. */
  lemma SearchOrderDistinct(tier: string)
    ensures Distinct(SearchOrder(tier))
  {
  }

  /** Where `t` first occurs in the order (|order| when it does not). */
  function TierPosition(order: seq<string>, t: string): (p: nat)
    ensures p <= |order|
    ensures p < |order| <==> t in order
    ensures p < |order| ==> order[p] == t
  {
    if order == [] then 0 else if order[0] == t then 0 else 1 + TierPosition(order[1..], t)
  }

  /** Candidates come tier by tier: the tier of a later candidate never
      comes earlier in the order. */
  lemma {:induction false} CandidatesTierOrder(c: SwarmConfig, order: seq<string>, health: Option<Monitor>)
    requires Distinct(order)
    ensures TierOrdered(order, Candidates(c, order, health))
  {
    if order != [] {
      var cs := Candidates(c, order, health);
      var head := TierCandidates(GetTierModels(c, order[0]), order[0], health);
      var rest := Candidates(c, order[1..], health);
      var tail := order[1..];
      assert cs == head + rest;
      DistinctTail(order);
      CandidatesTierOrder(c, tail, health);
      RestAfterHead(c, order, health);
      TierOrderedAppend(order, head, rest);
    }
  }

  lemma TierOrderedAppend(order: seq<string>, head: seq<Candidate>, rest: seq<Candidate>)
    requires order != []
    requires forall k :: 0 <= k < |head| ==> head[k].tier == order[0]
    requires forall k :: 0 <= k < |rest| ==>
               TierPosition(order, rest[k].tier) == 1 + TierPosition(order[1..], rest[k].tier)
    requires TierOrdered(order[1..], rest)
    ensures TierOrdered(order, head + rest)
  {
    var cs := head + rest;
    forall a, b | 0 <= a < b < |cs| ensures TierPosition(order, cs[a].tier) <= TierPosition(order, cs[b].tier) {
      if a < |head| {
        assert cs[a] == head[a];
      } else {
        assert cs[a] == rest[a - |head|] && cs[b] == rest[b - |head|];
      }
    }
  }

  /** The tiers of `cs` appear in the order `order` lists them. */
  predicate TierOrdered(order: seq<string>, cs: seq<Candidate>) {
    forall a, b :: 0 <= a < b < |cs| ==> TierPosition(order, cs[a].tier) <= TierPosition(order, cs[b].tier)
  }

  lemma DistinctTail(order: seq<string>)
    requires order != [] && Distinct(order)
    ensures Distinct(order[1..])
  {
    var tail := order[1..];
    forall i, j | 0 <= i < j < |tail| ensures tail[i] != tail[j] {
      assert tail[i] == order[i + 1] && tail[j] == order[j + 1];
    }
  }

  /** The later tiers' candidates are not of the first tier, and sit one
      position further along the order than along its tail. */
  lemma RestAfterHead(c: SwarmConfig, order: seq<string>, health: Option<Monitor>)
    requires order != [] && Distinct(order)
    ensures var rest := Candidates(c, order[1..], health);
            forall k :: 0 <= k < |rest| ==>
              rest[k].tier != order[0] && TierPosition(order, rest[k].tier) == 1 + TierPosition(order[1..], rest[k].tier)
  {
    var rest := Candidates(c, order[1..], health);
    var tail := order[1..];
    forall k | 0 <= k < |rest| ensures rest[k].tier != order[0] {
      var m :| 0 <= m < |tail| && tail[m] == rest[k].tier;
      assert order[m + 1] == rest[k].tier;
    }
  }

  /** The request the router sends to a candidate, with its search tier's timeout. */
  function RequestFor(c: SwarmConfig, messages: seq<Message>, cand: Candidate): CallRequest {
    CallRequest(cand.entry.modelId, messages, cand.entry.endpoint, GetTierTimeout(c, cand.tier))
  }

  function Requests(c: SwarmConfig, messages: seq<Message>, cs: seq<Candidate>): (rs: seq<CallRequest>)
    ensures |rs| == |cs|
    ensures forall k :: 0 <= k < |cs| ==> rs[k] == RequestFor(c, messages, cs[k])
  {
    seq(|cs|, k requires 0 <= k < |cs| => RequestFor(c, messages, cs[k]))
  }

  /** The answer of a successful route. `tier` is the model tier it succeeded in. */
  datatype RouteResult = RouteResult(model: string, tier: string, response: Json)

  /** Every candidate failed or none was reachable. */
  datatype RouteError = Exhausted(tier: string, lastError: Option<string>)

  function ErrorText(e: RouteError): string {
    "All models exhausted for tier " + e.tier + ". Last error: " + e.lastError.GetOr("None")
  }

  /** What a route did: the requests it sent, in order, and its outcome. */
  datatype Routed = Routed(attempts: seq<CallRequest>, result: Result<RouteResult, RouteError>)

  /** The first-success search over the candidates; `last` is the error of
      the previous failed call, if any. */
  function Search(c: SwarmConfig, messages: seq<Message>, cs: seq<Candidate>, call: CallOracle,
                  detected: string, last: Option<string>): (r: Routed)
    ensures 0 < |r.attempts| <= |cs| || (r.attempts == [] && r.result == Failure(Exhausted(detected, last)))
    decreases |cs|
  {
    if cs == [] then Routed([], Failure(Exhausted(detected, last)))
    else
      var req := RequestFor(c, messages, cs[0]);
      match call(req)
      case Success(response) => Routed([req], Success(RouteResult(cs[0].entry.modelId, cs[0].tier, ExtractText(response))))
      case Failure(err) =>
        var rest := Search(c, messages, cs[1..], call, detected, Some(err));
        Routed([req] + rest.attempts, rest.result)
  }

  /** The search sends its candidates' requests in order, and every call
      before its last one failed. */
  lemma {:induction false} SearchAttempts(c: SwarmConfig, messages: seq<Message>, cs: seq<Candidate>, call: CallOracle,
                                          detected: string, last: Option<string>)
    ensures var r := Search(c, messages, cs, call, detected, last);
            && r.attempts == Requests(c, messages, cs)[..|r.attempts|]
            && (forall j :: 0 <= j < |r.attempts| - 1 ==> call(r.attempts[j]).Failure?)
    decreases |cs|
  {
    if cs != [] {
      var req := RequestFor(c, messages, cs[0]);
      if call(req).Failure? {
        var rest := Search(c, messages, cs[1..], call, detected, Some(call(req).error));
        SearchAttempts(c, messages, cs[1..], call, detected, Some(call(req).error));
        SearchShift(c, messages, cs, rest.attempts);
        var r := Search(c, messages, cs, call, detected, last);
        assert r.attempts == [req] + rest.attempts;
        assert forall j :: 1 <= j < |r.attempts| ==> r.attempts[j] == rest.attempts[j - 1];
      }
    }
  }

  /** A successful search reports the candidate whose call succeeded, with
      the extracted text of its answer; that call is the last one made. */
  lemma {:induction false} SearchSuccess(c: SwarmConfig, messages: seq<Message>, cs: seq<Candidate>, call: CallOracle,
                                         detected: string, last: Option<string>)
    ensures var r := Search(c, messages, cs, call, detected, last);
            r.result.Success? ==>
              && |r.attempts| > 0
              && var i := |r.attempts| - 1;
                 && r.attempts[i] == RequestFor(c, messages, cs[i])
                 && call(r.attempts[i]).Success?
                 && r.result.value == RouteResult(cs[i].entry.modelId, cs[i].tier, ExtractText(call(r.attempts[i]).value))
    decreases |cs|
  {
    if cs != [] {
      var req := RequestFor(c, messages, cs[0]);
      if call(req).Failure? {
        var rest := Search(c, messages, cs[1..], call, detected, Some(call(req).error));
        SearchSuccess(c, messages, cs[1..], call, detected, Some(call(req).error));
        if rest.result.Success? {
          var r := Search(c, messages, cs, call, detected, last);
          var i := |rest.attempts| - 1;
          assert r.attempts[i + 1] == rest.attempts[i] && cs[i + 1] == cs[1..][i];
        }
      }
    }
  }

  /** A failed search called every candidate, each call failed, and the
      error carries the last call's error (or `last` when there was none). */
  lemma {:induction false} SearchExhausted(c: SwarmConfig, messages: seq<Message>, cs: seq<Candidate>, call: CallOracle,
                                           detected: string, last: Option<string>)
    ensures var r := Search(c, messages, cs, call, detected, last);
            r.result.Failure? ==>
              && |r.attempts| == |cs|
              && (forall j :: 0 <= j < |cs| ==> call(r.attempts[j]).Failure?)
              && r.result.error.tier == detected
              && r.result.error.lastError == (if cs == [] then last else Some(call(r.attempts[|cs| - 1]).error))
    decreases |cs|
  {
    if cs != [] {
      var req := RequestFor(c, messages, cs[0]);
      if call(req).Failure? {
        var rest := Search(c, messages, cs[1..], call, detected, Some(call(req).error));
        SearchExhausted(c, messages, cs[1..], call, detected, Some(call(req).error));
        var r := Search(c, messages, cs, call, detected, last);
        assert r.attempts == [req] + rest.attempts;
        assert forall j :: 1 <= j < |r.attempts| ==> r.attempts[j] == rest.attempts[j - 1];
      }
    }
  }

  lemma SearchShift(c: SwarmConfig, messages: seq<Message>, cs: seq<Candidate>, tail: seq<CallRequest>)
    requires cs != [] && |tail| <= |cs| - 1
    requires tail == Requests(c, messages, cs[1..])[..|tail|]
    ensures [RequestFor(c, messages, cs[0])] + tail == Requests(c, messages, cs)[..|tail| + 1]
  {
    var all := Requests(c, messages, cs);
    var rest := Requests(c, messages, cs[1..]);
    var lhs := [RequestFor(c, messages, cs[0])] + tail;
    forall k | 0 <= k < |lhs| ensures lhs[k] == all[k] {
      if k > 0 {
        assert lhs[k] == tail[k - 1] == rest[k - 1];
        assert cs[1..][k - 1] == cs[k];
      }
    }
  }

  /** `auto_route`: refresh the monitor (first probe round), pick the tier,
      and search its fallback order. */
  function AutoRoute(prompt: string, system: Option<string>, forced: Option<string>, c: SwarmConfig,
                     health: Option<Monitor>, probes: Probes, call: CallOracle): Routed
  {
    var detected := DetectTier(c, prompt, forced);
    Search(c, Messages(system, prompt), Candidates(c, SearchOrder(detected), RoutedHealth(health, probes)), call, detected, None)
  }

  /** The monitor as the search sees it, after the route's own refresh. */
  function RoutedHealth(health: Option<Monitor>, probes: Probes): Option<Monitor> {
    if health.Some? then Some(Refresh(health.value, probes(0)).0) else None
  }

  /** The candidates the route searches: every reachable model of the
      detected tier's fallback order, after the route's own refresh. */
  function RouteCandidates(prompt: string, forced: Option<string>, c: SwarmConfig,
                           health: Option<Monitor>, probes: Probes): seq<Candidate>
  {
    Candidates(c, SearchOrder(DetectTier(c, prompt, forced)), RoutedHealth(health, probes))
  }

  /** The route's attempts are its candidates' requests in search order,
      and no down endpoint is ever called. */
  lemma AutoRouteAttempts(prompt: string, system: Option<string>, forced: Option<string>, c: SwarmConfig,
                          health: Option<Monitor>, probes: Probes, call: CallOracle)
    ensures var r := AutoRoute(prompt, system, forced, c, health, probes, call);
            var cs := RouteCandidates(prompt, forced, c, health, probes);
            && |r.attempts| <= |cs|
            && (forall j :: 0 <= j < |r.attempts| ==>
                  && r.attempts[j] == RequestFor(c, Messages(system, prompt), cs[j])
                  && cs[j].tier in SearchOrder(DetectTier(c, prompt, forced))
                  && Reachable(RoutedHealth(health, probes), cs[j].entry))
  {
    var cs := RouteCandidates(prompt, forced, c, health, probes);
    SearchAttempts(c, Messages(system, prompt), cs, call, DetectTier(c, prompt, forced), None);
  }

  /** An exhausted route called every registered model of every tier of its
      fallback order whose endpoint was up after the route's refresh. */
  lemma AutoRouteExhaustedTriedAll(prompt: string, system: Option<string>, forced: Option<string>, c: SwarmConfig,
                                   health: Option<Monitor>, probes: Probes, call: CallOracle, i: nat, e: ModelEntry)
    requires AutoRoute(prompt, system, forced, c, health, probes, call).result.Failure?
    requires var order := SearchOrder(DetectTier(c, prompt, forced));
             i < |order| && e in GetTierModels(c, order[i]) && Reachable(RoutedHealth(health, probes), e)
    ensures var order := SearchOrder(DetectTier(c, prompt, forced));
            RequestFor(c, Messages(system, prompt), Candidate(e, order[i])) in AutoRoute(prompt, system, forced, c, health, probes, call).attempts
  {
    var detected := DetectTier(c, prompt, forced);
    var order := SearchOrder(detected);
    var messages := Messages(system, prompt);
    var cs := RouteCandidates(prompt, forced, c, health, probes);
    var r := AutoRoute(prompt, system, forced, c, health, probes, call);
    assert r == Search(c, messages, cs, call, detected, None);
    CandidatesComplete(c, order, RoutedHealth(health, probes), i, e);
    var k :| 0 <= k < |cs| && cs[k] == Candidate(e, order[i]);
    SearchExhausted(c, messages, cs, call, detected, None);
    SearchAttempts(c, messages, cs, call, detected, None);
    assert r.attempts[k] == Requests(c, messages, cs)[k];
  }

  /** The outcome of a search over candidates drawn from `order`. */
  lemma SearchOutcome(c: SwarmConfig, messages: seq<Message>, cs: seq<Candidate>, call: CallOracle,
                      detected: string, order: seq<string>)
    requires forall k :: 0 <= k < |cs| ==> cs[k].tier in order
    ensures var r := Search(c, messages, cs, call, detected, None);
            && (r.result.Success? ==> r.result.value.tier in order)
            && (r.result.Failure? ==> r.result.error.tier == detected)
            && (r.result.Failure? && cs == [] ==> r.result.error.lastError.None?)
            && (r.result.Failure? && cs != [] ==>
                  && |r.attempts| == |cs|
                  && call(r.attempts[|cs| - 1]).Failure?
                  && r.result.error.lastError == Some(call(r.attempts[|cs| - 1]).error))
  {
    var r := Search(c, messages, cs, call, detected, None);
    SearchSuccess(c, messages, cs, call, detected, None);
    SearchExhausted(c, messages, cs, call, detected, None);
    if r.result.Success? {
      var i := |r.attempts| - 1;
      assert r.result.value.tier == cs[i].tier;
    }
  }

  /** A success names the model tier it came from, one of the detected
      tier's fallback order; exhaustion carries the detected tier and the
      last call error, None when nothing was called. */
  lemma AutoRouteOutcome(prompt: string, system: Option<string>, forced: Option<string>, c: SwarmConfig,
                         health: Option<Monitor>, probes: Probes, call: CallOracle)
    ensures var r := AutoRoute(prompt, system, forced, c, health, probes, call);
            var detected := DetectTier(c, prompt, forced);
            var cs := RouteCandidates(prompt, forced, c, health, probes);
            && (r.result.Success? ==> r.result.value.tier in SearchOrder(detected) && r.result.value.tier in {"fast", "power", "deep"})
            && (r.result.Failure? ==> r.result.error.tier == detected)
            && (r.result.Failure? && cs == [] ==> r.result.error.lastError.None?)
            && (r.result.Failure? && cs != [] ==>
                  && |r.attempts| == |cs|
                  && call(r.attempts[|cs| - 1]).Failure?
                  && r.result.error.lastError == Some(call(r.attempts[|cs| - 1]).error))
  {
    var detected := DetectTier(c, prompt, forced);
    var h := RoutedHealth(health, probes);
    assert RouteCandidates(prompt, forced, c, health, probes) == Candidates(c, SearchOrder(detected), h);
    assert AutoRoute(prompt, system, forced, c, health, probes, call)
           == Search(c, Messages(system, prompt), Candidates(c, SearchOrder(detected), h), call, detected, None);
    RouteOutcomeFor(c, Messages(system, prompt), detected, h, call);
  }

  /** `Router.AutoRouteOutcome` for a given detected tier. */
  lemma RouteOutcomeFor(c: SwarmConfig, messages: seq<Message>, detected: string, health: Option<Monitor>, call: CallOracle)
    ensures var cs := Candidates(c, SearchOrder(detected), health);
            var r := Search(c, messages, cs, call, detected, None);
            && (r.result.Success? ==> r.result.value.tier in SearchOrder(detected) && r.result.value.tier in {"fast", "power", "deep"})
            && (r.result.Failure? ==> r.result.error.tier == detected)
            && (r.result.Failure? && cs == [] ==> r.result.error.lastError.None?)
            && (r.result.Failure? && cs != [] ==>
                  && |r.attempts| == |cs|
                  && call(r.attempts[|cs| - 1]).Failure?
                  && r.result.error.lastError == Some(call(r.attempts[|cs| - 1]).error))
  {
    SearchOutcome(c, messages, Candidates(c, SearchOrder(detected), health), call, detected, SearchOrder(detected));
  }

  /** A search over one candidate whose call succeeds makes that one call
      and returns its answer. */
  lemma SearchOne(c: SwarmConfig, messages: seq<Message>, cand: Candidate, call: CallOracle, detected: string)
    requires call(RequestFor(c, messages, cand)).Success?
    ensures var req := RequestFor(c, messages, cand);
            Search(c, messages, [cand], call, detected, None)
            == Routed([req], Success(RouteResult(cand.entry.modelId, cand.tier, ExtractText(call(req).value))))
  {
  }

  /** The candidates of the order ["fast"], without a monitor, are the fast
      tier's models. */
  lemma FastCandidates(c: SwarmConfig)
    ensures Candidates(c, ["fast"], None) == TierCandidates(GetTierModels(c, "fast"), "fast", None)
  {
    assert ["fast"][1..] == [];
    assert Candidates(c, ["fast"], None) == TierCandidates(GetTierModels(c, "fast"), "fast", None) + Candidates(c, [], None);
  }

  /** A tier list with a first model has it as its first candidate when no monitor is given. */
  lemma FirstTierCandidate(es: seq<ModelEntry>, tier: string)
    requires es != []
    ensures TierCandidates(es, tier, None) != [] && TierCandidates(es, tier, None)[0] == Candidate(es[0], tier)
  {
  }

  /** With only fast models registered and no monitor, a route forced to T3
      passes the empty deep and power tiers without a call (they are not
      failures) and answers from the first fast model, reporting tier "fast". */
  lemma ForcedDeepFallsBackToFast(prompt: string, system: Option<string>, c: SwarmConfig, probes: Probes, call: CallOracle)
    requires GetTierModels(c, "deep") == [] && GetTierModels(c, "power") == [] && GetTierModels(c, "fast") != []
    requires call(RequestFor(c, Messages(system, prompt), Candidate(GetTierModels(c, "fast")[0], "fast"))).Success?
    ensures var r := AutoRoute(prompt, system, Some("T3"), c, None, probes, call);
            var e := GetTierModels(c, "fast")[0];
            var req := RequestFor(c, Messages(system, prompt), Candidate(e, "fast"));
            && req.timeout == c.timeoutFast
            && r.attempts == [req]
            && r.result == Success(RouteResult(e.modelId, "fast", ExtractText(call(req).value)))
  {
    var fast := GetTierModels(c, "fast");
    assert DetectTier(c, prompt, Some("T3")) == "T3";
    var cs := Candidates(c, ["deep", "power", "fast"], None);
    DeepOrderOnlyFast(c);
    FirstTierCandidate(fast, "fast");
    SearchFirst(c, Messages(system, prompt), cs, call, "T3");
  }

  /** With no deep or power models and no monitor, the T3 order's
      candidates are the fast tier's. */
  lemma DeepOrderOnlyFast(c: SwarmConfig)
    requires GetTierModels(c, "deep") == [] && GetTierModels(c, "power") == []
    ensures Candidates(c, ["deep", "power", "fast"], None) == TierCandidates(GetTierModels(c, "fast"), "fast", None)
  {
    assert ["deep", "power", "fast"][1..] == ["power", "fast"] && ["power", "fast"][1..] == ["fast"];
    assert TierCandidates(GetTierModels(c, "deep"), "deep", None) == [];
    assert TierCandidates(GetTierModels(c, "power"), "power", None) == [];
    var cs := Candidates(c, ["deep", "power", "fast"], None);
    assert cs == Candidates(c, ["power", "fast"], None);
    assert cs == Candidates(c, ["fast"], None);
    FastCandidates(c);
  }

  /** A search whose first call succeeds stops there. */
  lemma SearchFirst(c: SwarmConfig, messages: seq<Message>, cs: seq<Candidate>, call: CallOracle, detected: string)
    requires cs != [] && call(RequestFor(c, messages, cs[0])).Success?
    ensures Search(c, messages, cs, call, detected, None) == Search(c, messages, [cs[0]], call, detected, None)
  {
  }

  /** The one-model scenario: a fast model registered on a fresh
      configuration, no monitor, prompt "Hi". The prompt classifies as T1,
      the only call goes to that model, and its answer is returned with the
      model tier "fast". */
  lemma HiRoutesToOnlyFastModel(env: Env, id: string, latency: real, probes: Probes, call: CallOracle)
    requires var c := AddModel(NewConfig(env), id, "fast", None, latency);
             call(RequestFor(c, [Message("user", "Hi")], Candidate(c.models[0], "fast"))).Success?
    ensures var c := AddModel(NewConfig(env), id, "fast", None, latency);
            var r := AutoRoute("Hi", None, None, c, None, probes, call);
            var req := RequestFor(c, [Message("user", "Hi")], Candidate(c.models[0], "fast"));
            && DetectTier(c, "Hi", None) == "T1"
            && r.attempts == [req]
            && r.result == Success(RouteResult(id, "fast", ExtractText(call(req).value)))
  {
    var c := AddModel(NewConfig(env), id, "fast", None, latency);
    var e := c.models[0];
    assert NoSpace("Hi");
    ClassifyShortWord(c, "Hi");
    assert c.models == [e];
    assert GetTierModels(c, "fast") == [e] by {
      assert c.models[1..] == [];
    }
    FastCandidates(c);
    FirstTierCandidate([e], "fast");
    assert TierCandidates([e], "fast", None) == [Candidate(e, "fast")] by {
      assert [e][1..] == [];
    }
    assert Messages(None, "Hi") == [Message("user", "Hi")];
    SearchOne(c, [Message("user", "Hi")], Candidate(e, "fast"), call, "T1");
  }

  /** When the monitor, after its refresh, reports every registered model's
      endpoint down, nothing is called and the route is exhausted with no
      last error. */
  lemma AllDownExhausted(prompt: string, system: Option<string>, forced: Option<string>, c: SwarmConfig,
                         health: Monitor, probes: Probes, call: CallOracle)
    requires forall k :: 0 <= k < |c.models| ==> !IsUp(Refresh(health, probes(0)).0, c.models[k].endpoint.name)
    ensures var r := AutoRoute(prompt, system, forced, c, Some(health), probes, call);
            r.attempts == [] && r.result == Failure(Exhausted(DetectTier(c, prompt, forced), None))
  {
    var h := RoutedHealth(Some(health), probes);
    NoCandidates(c, SearchOrder(DetectTier(c, prompt, forced)), h);
  }

  /** No model is a candidate when every registered model is unreachable. */
  lemma {:induction false} NoCandidates(c: SwarmConfig, order: seq<string>, health: Option<Monitor>)
    requires forall k :: 0 <= k < |c.models| ==> !Reachable(health, c.models[k])
    ensures Candidates(c, order, health) == []
  {
    if order != [] {
      var ms := GetTierModels(c, order[0]);
      var idx := FilterTierIndices(c.models, order[0]);
      assert forall k :: 0 <= k < |ms| ==> !Reachable(health, ms[k]) by {
        forall k | 0 <= k < |ms| ensures !Reachable(health, ms[k]) {
          assert ms[k] == c.models[idx[k]];
        }
      }
      NoTierCandidates(ms, order[0], health);
      NoCandidates(c, order[1..], health);
    }
  }

  lemma {:induction false} NoTierCandidates(es: seq<ModelEntry>, tier: string, health: Option<Monitor>)
    requires forall k :: 0 <= k < |es| ==> !Reachable(health, es[k])
    ensures TierCandidates(es, tier, health) == []
  {
    if es != [] {
      assert !Reachable(health, es[0]);
      NoTierCandidates(es[1..], tier, health);
    }
  }
}
