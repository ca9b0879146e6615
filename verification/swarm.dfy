/** The swarm caller: call the first models of a tier, score each answer by
    length, structure and speed, and rank them best first; or race them and
    keep the first answer that arrives. */
module Swarm {
  import opened Wrappers
  import opened Text
  import opened PyJson
  import opened Config
  import Router
  import Ranking
  import opened Completion

  /** One model call as the swarm issues it. */
  datatype SwarmRequest = SwarmRequest(entry: ModelEntry, prompt: string, timeout: int)

  /** What the call did, with the seconds it took: an answer envelope, the
      timeout firing, or an exception with its text. */
  datatype CallOutcome =
    | Answered(response: Json, elapsed: real)
    | TimedOut(elapsed: real)
    | Raised(message: string, elapsed: real)

  type ModelCall = SwarmRequest -> CallOutcome

  datatype Status = Ok | Timeout | Error | AllFailed

  /** A call result. `content` and `tokens` are JNull for None; the race's
      all-failed result has no model and no elapsed time. */
  datatype CallResult = CallResult(
    model: Option<string>,
    status: Status,
    elapsed: Option<real>,
    content: Json,
    tokens: Json,
    error: Option<string>)

  /** `call_model`: the answer's message content and its token count, or an
      error result when the envelope has not that shape (or its usage is
      not a dict), or a timeout result. */
  function CallModel(e: ModelEntry, prompt: string, timeout: int, call: ModelCall): (r: CallResult)
    ensures r.model == Some(e.modelId) && r.elapsed.Some?
    ensures r.status in {Ok, Status.Timeout, Error}
    ensures r.status == Ok <==>
              && call(SwarmRequest(e, prompt, timeout)).Answered?
              && Router.ContentPath(call(SwarmRequest(e, prompt, timeout)).response).Success?
              && Get(Get(call(SwarmRequest(e, prompt, timeout)).response, "usage", JObj([])).value, "total_tokens", JNull).Success?
    ensures r.status == Ok ==> r.content == Router.ContentPath(call(SwarmRequest(e, prompt, timeout)).response).value && r.error.None?
    ensures r.status == Status.Timeout <==> call(SwarmRequest(e, prompt, timeout)).TimedOut?
    ensures r.status != Ok ==> r.content == JNull && r.tokens == JNull
    ensures r.status == Error <==> r.error.Some?
  {
    match call(SwarmRequest(e, prompt, timeout))
    case TimedOut(elapsed) => CallResult(Some(e.modelId), Status.Timeout, Some(elapsed), JNull, JNull, None)
    case Raised(message, elapsed) => CallResult(Some(e.modelId), Error, Some(elapsed), JNull, JNull, Some(message))
    case Answered(response, elapsed) =>
      match Router.ContentPath(response)
      case Failure(err) => CallResult(Some(e.modelId), Error, Some(elapsed), JNull, JNull, Some(Message(err)))
      case Success(content) =>
        // the content path succeeded, so the response is a dict and has `get`
        var usage := Get(response, "usage", JObj([])).value;
        match Get(usage, "total_tokens", JNull)
        case Failure(err) => CallResult(Some(e.modelId), Error, Some(elapsed), JNull, JNull, Some(Message(err)))
        case Success(tokens) => CallResult(Some(e.modelId), Ok, Some(elapsed), content, tokens, None)
  }

  /** Some line of `s.splitlines()` starts with "#": a "#" at the start or
      right after a line break (HeadingLineIffSplitLines). */
  predicate HasHeadingLine(s: string) {
    exists i :: 0 <= i < |s| && s[i] == '#' && (i == 0 || IsLineBreak(s[i - 1]))
  }

  /** `any(line.startswith("#") for line in s.splitlines())`. */
  predicate SomeLineIsHeading(lines: seq<string>) {
    exists k :: 0 <= k < |lines| && StartsWith(lines[k], "#")
  }

  /** The heading test is the source's: a "#" at a line start is exactly a
      line of `splitlines()` that starts with "#". */
  lemma HeadingLineIffSplitLines(s: string)
    ensures HasHeadingLine(s) <==> SomeLineIsHeading(SplitLines(s))
  {
    if HasHeadingLine(s) {
      HeadingIsALine(s);
    }
    if SomeLineIsHeading(SplitLines(s)) {
      ALineIsHeading(s);
    }
  }

  lemma {:induction false} HeadingIsALine(s: string)
    requires HasHeadingLine(s)
    ensures SomeLineIsHeading(SplitLines(s))
    decreases |s|
  {
    var i :| 0 <= i < |s| && s[i] == '#' && (i == 0 || IsLineBreak(s[i - 1]));
    if i == 0 {
      FirstLineHeading(s);
    } else {
      HeadingInNextLines(s, i);
      var t := s[NextLine(s, LineEnd(s, 0))..];
      HeadingIsALine(t);
      LaterLineHeading(s);
    }
  }

  /** A text starting with "#" has it at the start of its first line. */
  lemma FirstLineHeading(s: string)
    requires s != [] && s[0] == '#'
    ensures SomeLineIsHeading(SplitLines(s))
  {
    var e := LineEnd(s, 0);
    assert e > 0;
    assert SplitLines(s)[0] == s[..e];
    assert StartsWith(SplitLines(s)[0], "#");
  }

  /** A heading among the lines after the first is a heading among all lines. */
  lemma LaterLineHeading(s: string)
    requires LineEnd(s, 0) < |s| && SomeLineIsHeading(SplitLines(s[NextLine(s, LineEnd(s, 0))..]))
    ensures SomeLineIsHeading(SplitLines(s))
  {
    SplitLinesCons(s);
    HeadingInLaterLines(s[..LineEnd(s, 0)], SplitLines(s[NextLine(s, LineEnd(s, 0))..]));
  }

  lemma HeadingInLaterLines(first: string, rest: seq<string>)
    requires SomeLineIsHeading(rest)
    ensures SomeLineIsHeading([first] + rest)
  {
    var k :| 0 <= k < |rest| && StartsWith(rest[k], "#");
    assert ([first] + rest)[k + 1] == rest[k];
  }

  lemma HeadingInNextLines(s: string, i: nat)
    requires 0 < i < |s| && s[i] == '#' && IsLineBreak(s[i - 1])
    ensures LineEnd(s, 0) < |s| && NextLine(s, LineEnd(s, 0)) <= i
    ensures HasHeadingLine(s[NextLine(s, LineEnd(s, 0))..])
  {
    var e := LineEnd(s, 0);
    var n := NextLine(s, e);
    var t := s[n..];
    assert t[i - n] == '#';
    if i - n > 0 {
      assert t[i - n - 1] == s[i - 1];
    }
  }

  lemma {:induction false} ALineIsHeading(s: string)
    requires SomeLineIsHeading(SplitLines(s))
    ensures HasHeadingLine(s)
    decreases |s|
  {
    var e := LineEnd(s, 0);
    var k :| 0 <= k < |SplitLines(s)| && StartsWith(SplitLines(s)[k], "#");
    if k == 0 {
      assert s[0] == SplitLines(s)[0][0];
    } else {
      var n := NextLine(s, e);
      var t := s[n..];
      assert SplitLines(s) == [s[..e]] + SplitLines(t);
      assert SplitLines(s)[k] == SplitLines(t)[k - 1];
      ALineIsHeading(t);
      HeadingFromNextLines(s);
    }
  }

  /** A heading of the lines after the first break is a heading of `s`. */
  lemma HeadingFromNextLines(s: string)
    requires LineEnd(s, 0) < |s| && HasHeadingLine(s[NextLine(s, LineEnd(s, 0))..])
    ensures HasHeadingLine(s)
  {
    var n := NextLine(s, LineEnd(s, 0));
    var t := s[n..];
    var j :| 0 <= j < |t| && t[j] == '#' && (j == 0 || IsLineBreak(t[j - 1]));
    assert s[j + n] == '#';
    if j > 0 {
      assert s[j + n - 1] == t[j - 1];
    }
  }

  /** The length part of the score. */
  function LengthScore(n: nat): (x: real)
    ensures 0.1 <= x <= 3.0
    ensures n < 50 ==> x == 0.1
    ensures n >= 50 && n <= 1500 ==> x == n as real / 500.0
    ensures n >= 1500 ==> x == 3.0
  {
    if n < 50 then 0.1
    else if n as real / 500.0 < 3.0 then n as real / 500.0 else 3.0
  }

  /** The structure part of the score: a fenced code block and a heading line. */
  function StructureScore(s: string): (x: real)
    ensures x == (if Contains(s, "```") then 0.5 else 0.0) + (if HasHeadingLine(s) then 0.3 else 0.0)
    ensures 0.0 <= x <= 0.8
  {
    (if Contains(s, "```") then 0.5 else 0.0) + (if HasHeadingLine(s) then 0.3 else 0.0)
  }

  /** The speed part of the score: full at 0 seconds, nothing from 30 on. */
  function SpeedScore(elapsed: real): (x: real)
    ensures x >= 0.0
    ensures elapsed >= 0.0 ==> x <= 1.0
    ensures elapsed >= 30.0 ==> x == 0.0
    ensures elapsed < 30.0 ==> x == 1.0 - elapsed / 30.0
  {
    if 1.0 - elapsed / 30.0 > 0.0 then 1.0 - elapsed / 30.0 else 0.0
  }

  /** `_score_result`: -1 for a result that is not ok or has falsy content;
      for string content, length + structure + speed. Truthy content that is
      not a string makes `len` or `splitlines` raise. */
  function Score(r: CallResult): (x: Result<real, PyError>)
    ensures (r.status != Ok || !Truthy(r.content)) ==> x == Success(-1.0)
    ensures x.Failure? <==> r.status == Ok && Truthy(r.content) && !r.content.JStr?
    ensures r.status == Ok && r.content.JStr? && r.content.s != [] ==>
              x == Success(LengthScore(|r.content.s|) + StructureScore(r.content.s) + SpeedScore(r.elapsed.GetOr(0.0)))
  {
    if r.status != Ok || !Truthy(r.content) then Success(-1.0)
    else
      match r.content
      case JStr(s) => Success(LengthScore(|s|) + StructureScore(s) + SpeedScore(r.elapsed.GetOr(0.0)))
      case JArr(_) => Failure(AttributeError("'list' object has no attribute 'splitlines'"))
      case JObj(_) => Failure(AttributeError("'dict' object has no attribute 'splitlines'"))
      case _ => Failure(TypeError("object of type '" + TypeName(r.content) + "' has no len()"))
  }

  /** An ok answer with content scores at least 0.1, above every failure. */
  lemma AnswerOutscoresFailure(r: CallResult)
    requires r.status == Ok && r.content.JStr? && r.content.s != []
    ensures Score(r).Success? && Score(r).value >= 0.1
  {
  }

  /** The sort key: the score, for results that have one. */
  function Key(r: CallResult): real {
    match Score(r)
    case Success(x) => x
    case Failure(_) => -1.0
  }

  /** Best first by score. */
  predicate Ranked(rs: seq<CallResult>) {
    Ranking.Ranked(Key, rs)
  }

  /** Ranking is stable, and ranking a ranked list changes nothing. */
  lemma RankStableIdempotent(rs: seq<CallResult>, v: real)
    ensures Ranking.WithKey(Key, Ranking.SortBy(Key, rs), v) == Ranking.WithKey(Key, rs, v)
    ensures Ranking.SortBy(Key, Ranking.SortBy(Key, rs)) == Ranking.SortBy(Key, rs)
  {
    Ranking.SortByStable(Key, rs, v);
    Ranking.SortByIdempotent(Key, rs);
  }

  /** The first result whose score raises, if any (keys are computed in list order). */
  function FirstScoreError(rs: seq<CallResult>): (e: Option<PyError>)
    ensures e.None? <==> forall k :: 0 <= k < |rs| ==> Score(rs[k]).Success?
  {
    if rs == [] then None
    else if Score(rs[0]).Failure? then Some(Score(rs[0]).error)
    else
      var e := FirstScoreError(rs[1..]);
      assert forall k :: 1 <= k < |rs| ==> rs[k] == rs[1..][k - 1];
      e
  }

  /** `rank_results`: sorted best first, stable; raises when a score does. */
  function RankResults(rs: seq<CallResult>): (r: Result<seq<CallResult>, PyError>)
    ensures r.Success? <==> forall k :: 0 <= k < |rs| ==> Score(rs[k]).Success?
    ensures r.Success? ==> multiset(r.value) == multiset(rs) && Ranked(r.value)
  {
    match FirstScoreError(rs)
    case Some(e) => Failure(e)
    case None =>
      Ranking.SortByRanked(Key, rs);
      Success(Ranking.SortBy(Key, rs))
  }

  /** After ranking, every ok answer with content precedes every result
      that is not ok. */
  lemma AnswersBeforeFailures(rs: seq<CallResult>, i: nat, j: nat)
    requires RankResults(rs).Success?
    requires i < |rs| && j < |rs|
    requires var out := RankResults(rs).value;
             out[i].status == Ok && out[i].content.JStr? && out[i].content.s != [] && out[j].status != Ok
    ensures i < j
  {
    var out := RankResults(rs).value;
    AnswerOutscoresFailure(out[i]);
    assert Key(out[j]) == -1.0;
  }

  /** An answer of 600 characters ranks above one of 30 with the same
      elapsed time, whatever markup either contains. */
  lemma LongerAnswerFirst(long: CallResult, short: CallResult)
    requires long.status == Ok && long.content.JStr? && |long.content.s| == 600
    requires short.status == Ok && short.content.JStr? && |short.content.s| == 30
    requires long.elapsed == short.elapsed
    ensures RankResults([short, long]) == Success([long, short])
  {
    LongerKey(long, short);
    assert FirstScoreError([short, long]).None?;
    SortTwo(short, long);
  }

  /** The 600-character answer outscores the 30-character one. */
  lemma LongerKey(long: CallResult, short: CallResult)
    requires long.status == Ok && long.content.JStr? && |long.content.s| == 600
    requires short.status == Ok && short.content.JStr? && |short.content.s| == 30
    requires long.elapsed == short.elapsed
    ensures Score(long).Success? && Score(short).Success? && Key(long) > Key(short)
  {
    var sp := SpeedScore(long.elapsed.GetOr(0.0));
    assert Score(long) == Success(LengthScore(600) + StructureScore(long.content.s) + sp);
    assert Score(short) == Success(LengthScore(30) + StructureScore(short.content.s) + sp);
  }

  /** Two results sorted: the higher key first. */
  lemma SortTwo(a: CallResult, b: CallResult)
    requires Key(b) > Key(a)
    ensures Ranking.SortBy(Key, [a, b]) == [b, a]
  {
    assert [a, b][1..] == [b];
    assert [b][1..] == [];
    assert Ranking.SortBy(Key, [b]) == [b];
    assert Ranking.Insert(Key, a, [b]) == [b] + Ranking.Insert(Key, a, []);
    assert Ranking.Insert(Key, a, []) == [a];
  }


  /** Python's `xs[:n]` for any integer `n`: a negative `n` counts from the end. */
  function Prefix<T>(xs: seq<T>, n: int): (r: seq<T>)
    ensures n >= 0 ==> |r| == (if n < |xs| then n else |xs|)
    ensures n < 0 ==> |r| == (if |xs| + n > 0 then |xs| + n else 0)
    ensures r == xs[..|r|]
  {
    if n >= 0 then Take(xs, n)
    else if |xs| + n > 0 then xs[..|xs| + n] else []
  }

  /** The models a swarm call dispatches: the first `maxModels` of the tier. */
  function Selected(c: SwarmConfig, tier: string, maxModels: int): seq<ModelEntry> {
    Prefix(GetTierModels(c, tier), maxModels)
  }

  /** The results in dispatch order (`gather` keeps it). */
  function Dispatch(sel: seq<ModelEntry>, prompt: string, timeout: int, call: ModelCall): (rs: seq<CallResult>)
    ensures |rs| == |sel|
    ensures forall k :: 0 <= k < |sel| ==> rs[k] == CallModel(sel[k], prompt, timeout, call)
  {
    seq(|sel|, k requires 0 <= k < |sel| => CallModel(sel[k], prompt, timeout, call))
  }

  /** `swarm_call`: call the selected models and rank their results. */
  function SwarmCall(prompt: string, tier: string, maxModels: int, timeout: int, c: SwarmConfig, call: ModelCall): Result<seq<CallResult>, PyError> {
    RankResults(Dispatch(Selected(c, tier, maxModels), prompt, timeout, call))
  }

  /** A swarm call returns one result per dispatched model, at most
      `maxModels` of the tier's models taken in registration order, ranked
      best first. */
  lemma SwarmCallSpec(prompt: string, tier: string, maxModels: int, timeout: int, c: SwarmConfig, call: ModelCall)
    ensures var sel := Selected(c, tier, maxModels);
            var r := SwarmCall(prompt, tier, maxModels, timeout, c, call);
            && sel == GetTierModels(c, tier)[..|sel|]
            && (maxModels >= 0 ==> |sel| == if maxModels < |GetTierModels(c, tier)| then maxModels else |GetTierModels(c, tier)|)
            && (r.Success? ==>
                  && |r.value| == |sel|
                  && multiset(r.value) == multiset(Dispatch(sel, prompt, timeout, call))
                  && Ranked(r.value))
  {
  }

  /** The race's result when nothing succeeded. */
  const AllFailedResult: CallResult := CallResult(None, AllFailed, None, JNull, JNull, None)

  /** `swarm_first`: the first ok result in completion order, else the
      all-failed result. */
  function FirstOk(rs: seq<CallResult>, order: seq<nat>): (r: CallResult)
    requires forall i :: 0 <= i < |order| ==> order[i] < |rs|
    ensures r.status == Ok || r == AllFailedResult
  {
    if order == [] then AllFailedResult
    else if rs[order[0]].status == Ok then rs[order[0]]
    else FirstOk(rs, order[1..])
  }

  /** The race returns an ok result exactly when some call succeeded,
      whatever the order of completion; it is the earliest ok one to
      complete, and every call completing before it failed. */
  lemma {:induction false} FirstOkSpec(rs: seq<CallResult>, order: seq<nat>)
    requires forall i :: 0 <= i < |order| ==> order[i] < |rs|
    ensures var r := FirstOk(rs, order);
            && (r.status == Ok <==> exists i :: 0 <= i < |order| && rs[order[i]].status == Ok)
            && (r.status == Ok ==> exists i :: 0 <= i < |order| && r == rs[order[i]]
                                     && forall j :: 0 <= j < i ==> rs[order[j]].status != Ok)
  {
    if order != [] {
      FirstOkSpec(rs, order[1..]);
      if rs[order[0]].status != Ok {
        var r := FirstOk(rs, order[1..]);
        if r.status == Ok {
          var i :| 0 <= i < |order[1..]| && r == rs[order[1..][i]]
                   && forall j :: 0 <= j < i ==> rs[order[1..][j]].status != Ok;
          assert r == rs[order[i + 1]];
          assert forall j :: 0 <= j < i + 1 ==> rs[order[j]].status != Ok by {
            forall j | 0 <= j < i + 1 ensures rs[order[j]].status != Ok {
              if j > 0 {
                assert order[j] == order[1..][j - 1];
              }
            }
          }
        }
        assert forall i :: 1 <= i < |order| ==> order[i] == order[1..][i - 1];
      }
    }
  }

  /** `swarm_first` over the selected models, given the completion order. */
  function SwarmFirst(prompt: string, tier: string, maxModels: int, timeout: int, c: SwarmConfig,
                      call: ModelCall, order: seq<nat>): CallResult
    requires IsOrder(order, |Selected(c, tier, maxModels)|)
  {
    FirstOk(Dispatch(Selected(c, tier, maxModels), prompt, timeout, call), order)
  }

  /** Whatever the completion order, the race succeeds exactly when some
      selected model answers ok, and then with one of their results. */
  lemma SwarmFirstSpec(prompt: string, tier: string, maxModels: int, timeout: int, c: SwarmConfig,
                       call: ModelCall, order: seq<nat>)
    requires IsOrder(order, |Selected(c, tier, maxModels)|)
    ensures var rs := Dispatch(Selected(c, tier, maxModels), prompt, timeout, call);
            var r := SwarmFirst(prompt, tier, maxModels, timeout, c, call, order);
            && (r.status == Ok <==> exists k :: 0 <= k < |rs| && rs[k].status == Ok)
            && (r.status != Ok ==> r == AllFailedResult)
            && (r.status == Ok ==> exists k :: 0 <= k < |rs| && r == rs[k])
  {
    var rs := Dispatch(Selected(c, tier, maxModels), prompt, timeout, call);
    FirstOkSpec(rs, order);
    if k :| 0 <= k < |rs| && rs[k].status == Ok {
      assert Listed(order, k);
      var i :| 0 <= i < |order| && order[i] == k;
      assert rs[order[i]].status == Ok;
    }
  }
}
