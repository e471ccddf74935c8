/** learning/ltr_quickrank.go: the QuickRank candidate selector. What is modelled is the
    command-line construction, the per-candidate input lines, the depth counter after a ranking
    step, the stopping test and the constructor with its options. The external binary, its pipes,
    the temporary file and the ranking it produces are oracle inputs (`SelectIo`). */
module QuickRank {
  import opened Results
  import opened Queries
  import opened Text
  import opened Sorting
  import LF = LearningFeature

  const MaxInt32 := 0x7fff_ffff
  const MaxInt64 := 0x7fff_ffff_ffff_ffff
  const MinInt64 := -0x8000_0000_0000_0000

  /** Go's `int` on a 64-bit platform. */
  type Int64 = x: int | MinInt64 <= x <= MaxInt64

  /** Go's `x++` on an int: two's-complement wrap-around at the top. */
  function Inc64(x: Int64): (y: Int64)
    ensures x < MaxInt64 ==> y == x + 1
    ensures x == MaxInt64 ==> y == MinInt64
  {
    if x == MaxInt64 then MinInt64 else x + 1
  }

  /** A value of the `map[string]interface{}` of arguments, as far as `%v` renders it. */
  datatype ArgValue = StringArg(s: string) | IntArg(i: int) | BoolArg(b: bool) | OtherArg(rendered: string)

  /** `%v` of an argument value. */
  function Render(v: ArgValue): string
  {
    match v
    case StringArg(s) => s
    case IntArg(i) => IntToString(i)
    case BoolArg(b) => if b then "true" else "false"
    case OtherArg(rendered) => rendered
  }

  /** QuickRankQueryCandidateSelector. A Go value type: Select works on a copy and returns it. */
  datatype Selector = Selector(
    binary: string,
    depth: Int64,
    currentDepth: Int64,
    source: Option<StatisticsSource>,
    arguments: map<string, ArgValue>)
  {
    /** StoppingCriteria: the depth budget is used up. */
    function StoppingCriteria(): (stop: bool)
      ensures stop <==> currentDepth >= depth
    {
      currentDepth >= depth
    }
  }

  /** The flag a key becomes. */
  function Flag(k: string): string
  {
    "--" + k
  }

  /** `args` passes every key of `a` once, in the visiting order `order`: `--key` at an even
      position and the rendered value right after it. */
  ghost predicate IsArgumentList(a: map<string, ArgValue>, args: seq<string>, order: seq<string>)
  {
    && |args| == 2 * |a| && |order| == |a|
    && (forall j :: 0 <= j < |order| ==> order[j] in a)
    && (forall k :: k in a ==> k in order)
    && (forall j1, j2 :: 0 <= j1 < j2 < |order| ==> order[j1] != order[j2])
    && (forall j :: 0 <= j < |order| ==> args[2 * j] == Flag(order[j]) && args[2 * j + 1] == Render(a[order[j]]))
  }

  /** makeArguments: a preallocated slice of twice the map's size, filled two cells at a time
      with `--key` and the rendered value. Map iteration order is arbitrary; `order` is the order
      the keys were visited in, and every key is visited exactly once. */
  method MakeArguments(a: map<string, ArgValue>) returns (args: seq<string>, ghost order: seq<string>)
    ensures |args| == 2 * |a| && |order| == |a|
    ensures forall j :: 0 <= j < |order| ==> order[j] in a
    ensures forall k :: k in a ==> k in order
    ensures forall j1, j2 :: 0 <= j1 < j2 < |order| ==> order[j1] != order[j2]
    ensures forall j :: 0 <= j < |order| ==> args[2 * j] == Flag(order[j]) && args[2 * j + 1] == Render(a[order[j]])
  {
    var cells := new string[|a| * 2](_ => "");
    var i := 0;
    var rest := a.Keys;
    order := [];
    while rest != {}
      invariant rest <= a.Keys
      invariant |order| + |rest| == |a| && i == 2 * |order|
      invariant forall j :: 0 <= j < |order| ==> order[j] in a && order[j] !in rest
      invariant forall k :: k in a && k !in rest ==> k in order
      invariant forall j1, j2 :: 0 <= j1 < j2 < |order| ==> order[j1] != order[j2]
      invariant forall j :: 0 <= j < |order| ==> cells[2 * j] == Flag(order[j]) && cells[2 * j + 1] == Render(a[order[j]])
      decreases |rest|
    {
      var k := Pick(rest);
      cells[i] := Flag(k);
      cells[i + 1] := Render(a[k]);
      i := i + 2;
      order := order + [k];
      rest := rest - {k};
    }
    args := cells[..];
  }

  /** Distinct keys give distinct flags. */
  lemma FlagInjective(k1: string, k2: string)
    requires Flag(k1) == Flag(k2)
    ensures k1 == k2
  {
    assert k1 == Flag(k1)[2..] && k2 == Flag(k2)[2..];
  }

  /** Every key of the map is passed exactly once, as a flag in an even position directly
      followed by its value. */
  lemma EachKeyOnce(a: map<string, ArgValue>, args: seq<string>, order: seq<string>, k: string)
    requires IsArgumentList(a, args, order) && k in a
    ensures exists j :: 0 <= j < |a| && args[2 * j] == Flag(k) && args[2 * j + 1] == Render(a[k])
    ensures forall j1, j2 :: 0 <= j1 < |a| && 0 <= j2 < |a| && args[2 * j1] == Flag(k) && args[2 * j2] == Flag(k) ==> j1 == j2
  {
    var j :| 0 <= j < |order| && order[j] == k;
    assert args[2 * j] == Flag(k) && args[2 * j + 1] == Render(a[k]);
    forall j1, j2 | 0 <= j1 < |a| && 0 <= j2 < |a| && args[2 * j1] == Flag(k) && args[2 * j2] == Flag(k)
      ensures j1 == j2
    {
      FlagInjective(order[j1], k);
      FlagInjective(order[j2], k);
    }
  }

  /** The options a caller may pass to the constructor. */
  datatype SelectorOption = MaxDepth(d: Int64) | UseStatisticsSource(s: StatisticsSource)

  /** The depth a selector is created with when no MaxDepth option is given. */
  const DefaultDepth: Int64 := 5

  /** NewQuickRankQueryCandidateSelector: defaults, then every option applied in order to the
      selector under construction, so the last MaxDepth and the last statistics source win. */
  method NewQuickRankQueryCandidateSelector(binary: string, arguments: map<string, ArgValue>, options: seq<SelectorOption>)
    returns (qr: Selector)
    ensures qr.binary == binary && qr.arguments == arguments && qr.currentDepth == 0
    ensures (forall i :: 0 <= i < |options| ==> !options[i].MaxDepth?) ==> qr.depth == DefaultDepth
    ensures forall i :: 0 <= i < |options| && options[i].MaxDepth? && (forall j :: i < j < |options| ==> !options[j].MaxDepth?)
                        ==> qr.depth == options[i].d
    ensures (forall i :: 0 <= i < |options| ==> !options[i].UseStatisticsSource?) ==> qr.source == None
    ensures forall i :: 0 <= i < |options| && options[i].UseStatisticsSource? && (forall j :: i < j < |options| ==> !options[j].UseStatisticsSource?)
                        ==> qr.source == Some(options[i].s)
  {
    qr := Selector(binary, DefaultDepth, 0, None, arguments);
    for k := 0 to |options|
      invariant qr.binary == binary && qr.arguments == arguments && qr.currentDepth == 0
      invariant (forall i :: 0 <= i < k ==> !options[i].MaxDepth?) ==> qr.depth == DefaultDepth
      invariant forall i :: 0 <= i < k && options[i].MaxDepth? && (forall j :: i < j < k ==> !options[j].MaxDepth?)
                           ==> qr.depth == options[i].d
      invariant (forall i :: 0 <= i < k ==> !options[i].UseStatisticsSource?) ==> qr.source == None
      invariant forall i :: 0 <= i < k && options[i].UseStatisticsSource? && (forall j :: i < j < k ==> !options[j].UseStatisticsSource?)
                           ==> qr.source == Some(options[i].s)
    {
      match options[k]
      case MaxDepth(d) => qr := qr.(depth := d);
      case UseStatisticsSource(s) => qr := qr.(source := Some(s));
    }
  }

  /** The depth update at the end of a ranking step: no results for the current query ends the
      search; otherwise one step is counted, and a step that did not change the query ends the
      search by jumping to MaxInt32. */
  function Advance(qr: Selector, retrieved: real, fixedPoint: bool): (next: Selector)
    ensures next.binary == qr.binary && next.depth == qr.depth
    ensures next.source == qr.source && next.arguments == qr.arguments
  {
    if retrieved == 0.0 then qr.(currentDepth := qr.depth)
    else if fixedPoint then qr.(currentDepth := MaxInt32)
    else qr.(currentDepth := Inc64(qr.currentDepth))
  }

  /** A step on a query without results always stops the search. */
  lemma ZeroResultsStop(qr: Selector, fixedPoint: bool)
    ensures Advance(qr, 0.0, fixedPoint).currentDepth == qr.depth
    ensures Advance(qr, 0.0, fixedPoint).StoppingCriteria()
  {
  }

  /** A step that leaves the query unchanged jumps to MaxInt32, so it stops the search exactly
      when the depth fits 32 bits: a configured depth above MaxInt32 is not reached. */
  lemma FixedPointStops(qr: Selector, retrieved: real)
    requires retrieved != 0.0
    ensures Advance(qr, retrieved, true).currentDepth == MaxInt32
    ensures Advance(qr, retrieved, true).StoppingCriteria() <==> qr.depth <= MaxInt32
  {
  }

  /** An ordinary step counts exactly one. */
  lemma OrdinaryStepCounts(qr: Selector, retrieved: real)
    requires retrieved != 0.0 && qr.currentDepth < MaxInt64
    ensures Advance(qr, retrieved, false).currentDepth == qr.currentDepth + 1
  {
  }

  /** `k` ordinary steps, each on a query with results that changed the query. */
  function OrdinarySteps(qr: Selector, k: nat): Selector
    decreases k
  {
    if k == 0 then qr else Advance(OrdinarySteps(qr, k - 1), 1.0, false)
  }

  /** From a fresh selector the search stops after exactly `depth` ordinary steps. */
  lemma {:induction false} StopsAfterDepthSteps(qr: Selector, k: nat)
    requires qr.currentDepth == 0 && k <= qr.depth
    ensures OrdinarySteps(qr, k).currentDepth == k
    ensures OrdinarySteps(qr, k).depth == qr.depth
    ensures OrdinarySteps(qr, k).StoppingCriteria() <==> k == qr.depth
    decreases k
  {
    if k > 0 {
      StopsAfterDepthSteps(qr, k - 1);
    }
  }

  /** What the external world does during one Select: the index of a candidate whose line
      fails to be written (with the error), an error from the pipes or the binary, the ranking
      read back from the scores file, and the retrieval size of each query (Select asks for
      the current query's). */
  datatype SelectIo = SelectIo(
    failingWrite: Option<nat>,
    writeError: Error,
    processError: Option<Error>,
    ranking: Result<LF.CandidateQuery>,
    retrievalSize: Query -> Result<real>)

  /** Select's three results. `candidate == None` is Go's zero CandidateQuery{} and
      `selector == None` a nil selector, which only the retrieval-size error path returns. */
  datatype SelectResult = SelectResult(candidate: Option<LF.CandidateQuery>, selector: Option<Selector>, err: Option<Error>)

  /** The line written for one candidate: label 0, the query's topic, and Features.String. */
  function CandidateLine(topic: string, kept: LF.Features, show: real -> string): string
  {
    "0 qid:" + topic + " " + "0 " + Concat(kept, LF.TrailingPair(show)) + "\n"
  }

  /** The fixed-point test, comparing the texts of the two queries (`text` is cqr's String). */
  function FixedPoint(query: LF.CandidateQuery, candidate: LF.CandidateQuery, text: Query -> string): (fixed: bool)
    ensures candidate.query == query.query ==> fixed
  {
    text(query.query) == text(candidate.query)
  }

  /** A candidate that repeats the current query ends the search (depth within 32 bits). */
  lemma UnchangedQueryStops(qr: Selector, query: LF.CandidateQuery, candidate: LF.CandidateQuery,
                            text: Query -> string, retrieved: real)
    requires candidate.query == query.query && retrieved != 0.0 && qr.depth <= MaxInt32
    ensures Advance(qr, retrieved, FixedPoint(query, candidate, text)).StoppingCriteria()
  {
    FixedPointStops(qr, retrieved);
  }

  /** The fixed-point test as line 127 writes it: `candidate.String()` resolves to the promoted
      Features.String (whose text is "0 " followed by the pairs), not to the query's text. */
  function FixedPointAsWritten(queryText: string, candidateKept: LF.Features, show: real -> string): (fixed: bool)
    ensures fixed ==> |queryText| >= 2 && queryText[..2] == "0 "
  {
    queryText == "0 " + Concat(candidateKept, LF.TrailingPair(show))
  }

  /** As written, a candidate that repeats the current query is not recognised whenever the
      query's text does not start with "0 " (a keyword "fever", say). */
  lemma AsWrittenMissesFixedPoint(query: LF.CandidateQuery, text: Query -> string, show: real -> string)
    requires text(query.query) == "fever"
    ensures FixedPoint(query, query, text)
    ensures forall kept :: !FixedPointAsWritten(text(query.query), kept, show)
  {
    assert "fever"[..2] == "fe";
  }

  /** Copies a candidate's features into the slice Features.String sorts. */
  method ToArray(fs: LF.Features) returns (a: array<LF.Feature>)
    ensures fresh(a) && a[..] == fs
  {
    a := new LF.Feature[|fs|](i requires 0 <= i < |fs| => fs[i]);
  }

  /** Select, up to the external process. The arguments are makeArguments' output then
      `--test fname`; one line per candidate is written, in candidate order, until a write
      fails; every error before the retrieval-size query returns the current query and the
      unchanged selector; a retrieval-size error returns nothing; otherwise the depth advances
      and the ranked candidate (or, with no results, the current query) is returned. */
  method Select(qr: Selector, query: LF.CandidateQuery, topic: string, transformations: seq<LF.CandidateQuery>,
                fname: string, io: SelectIo, text: Query -> string, show: real -> string)
    returns (r: SelectResult, args: seq<string>, ghost order: seq<string>, written: seq<string>, ghost kept: seq<LF.Features>)
    ensures |args| >= 2 && IsArgumentList(qr.arguments, args[..|args| - 2], order)
    ensures args[|args| - 2..] == ["--test", fname]
    ensures |written| == |kept| <= |transformations|
    ensures forall i :: 0 <= i < |written| ==>
              Deduplicated(transformations[i].features, kept[i], LF.Id) && written[i] == CandidateLine(topic, kept[i], show)
    ensures io.failingWrite.Some? && io.failingWrite.value < |transformations| ==>
              |written| == io.failingWrite.value && r == SelectResult(Some(query), Some(qr), Some(io.writeError))
    ensures !(io.failingWrite.Some? && io.failingWrite.value < |transformations|) ==> |written| == |transformations|
    ensures !(io.failingWrite.Some? && io.failingWrite.value < |transformations|) ==>
              if io.processError.Some? then r == SelectResult(Some(query), Some(qr), io.processError)
              else if io.ranking.Failure? then r == SelectResult(Some(query), Some(qr), Some(io.ranking.error))
              else if io.retrievalSize(query.query).Failure? then
                r == SelectResult(None, None, Some(io.retrievalSize(query.query).error))
              else if io.retrievalSize(query.query).value == 0.0 then
                r == SelectResult(Some(query), Some(Advance(qr, 0.0, false)), None)
              else
                r == SelectResult(Some(io.ranking.value),
                                  Some(Advance(qr, io.retrievalSize(query.query).value, FixedPoint(query, io.ranking.value, text))), None)
  {
    var flags;
    flags, order := MakeArguments(qr.arguments);
    args := flags + ["--test", fname];
    assert args[..|args| - 2] == flags;

    written := [];
    kept := [];
    for i := 0 to |transformations|
      invariant |written| == |kept| == i
      invariant io.failingWrite.Some? ==> io.failingWrite.value >= i
      invariant forall k :: 0 <= k < i ==>
                  Deduplicated(transformations[k].features, kept[k], LF.Id) && written[k] == CandidateLine(topic, kept[k], show)
    {
      if io.failingWrite == Some(i) {
        return SelectResult(Some(query), Some(qr), Some(io.writeError)), args, order, written, kept;
      }
      var features := ToArray(transformations[i].features);
      var s;
      ghost var k;
      s, k := LF.FeaturesString(features, show);
      written := written + ["0 qid:" + topic + " " + s + "\n"];
      kept := kept + [k];
    }

    if io.processError.Some? {
      return SelectResult(Some(query), Some(qr), io.processError), args, order, written, kept;
    }
    if io.ranking.Failure? {
      return SelectResult(Some(query), Some(qr), Some(io.ranking.error)), args, order, written, kept;
    }
    var candidate := io.ranking.value;

    var size := io.retrievalSize(query.query);
    if size.Failure? {
      return SelectResult(None, None, Some(size.error)), args, order, written, kept;
    }
    var ret := size.value;
    var next := qr;
    if ret == 0.0 {
      next := next.(currentDepth := next.depth);
      return SelectResult(Some(query), Some(next), None), args, order, written, kept;
    }
    next := next.(currentDepth := Inc64(next.currentDepth));
    if text(query.query) == text(candidate.query) {
      next := next.(currentDepth := MaxInt32);
    }
    r := SelectResult(Some(candidate), Some(next), None);
  }
}
