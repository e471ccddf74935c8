/** learning/feature.go: the fixed feature-id numbering, the structural encoders for context,
    keyword and Boolean nodes and for the transformation that produced a query, measurement
    deltas, the training-record writers, and the value-style chain operations of
    TransformedQuery and CandidateQuery.

    Scores are `real`; Go's float64 rounding is not modelled. Go's `%v` of a float64 is the
    parameter `show`, which every renderer takes. */
module LearningFeature {
  import opened Results
  import opened Queries
  import opened Text
  import opened Sorting

  /** A feature: an id from the numbering below and a score. */
  datatype Feature = Feature(id: int, score: real)
  {
    /** Feature.Set: a copy with the new score and the same id. */
    function Set(score: real): (f: Feature)
      ensures f.id == id && f.score == score
    {
      this.(score := score)
    }
  }

  type Features = seq<Feature>

  /** The sort key of Features.Less. */
  function Id(f: Feature): int { f.id }

  // The iota numbering of learning/feature.go:31-63.
  const NilFeature := 0
  const DepthFeature := 1
  const ClauseTypeFeature := 2
  const ChildrenCountFeature := 3
  const TransformationTypeFeature := 4
  const LogicalReplacementTypeFeature := 5
  const AdjacencyReplacementFeature := 6
  const AdjacencyDistanceFeature := 7
  const MeshDepthFeature := 8
  const MeshParentFeature := 9
  const RestrictionTypeFeature := 10
  const ClauseRemovalFeature := 11
  const Cui2vecExpansionFeature := 12
  const Cui2vecNumExpansionsFeature := 13
  const IsExplodedFeature := 14
  const IsTruncatedFeature := 15
  const NumFieldsFeature := 16
  const OperatorTypeFeature := 17
  /** measurementFeatures: the first raw-measurement id. */
  const MeasurementFeatures := 18
  /** chainFeatures: the last constant of the iota block. */
  const LastConstantFeature := 19

  /** The number of registered measurements, len(MeasurementFeatureKeys). */
  const MeasurementCount := 11

  /** ChainFeatures = chainFeatures + len(MeasurementFeatureKeys)*2: the first chain-position id. */
  const ChainFeatures := LastConstantFeature + MeasurementCount * 2

  ghost predicate Distinct<T>(s: seq<T>)
  {
    forall i, j :: 0 <= i < j < |s| ==> s[i] != s[j]
  }

  /** MeasurementFeatureKeys, given the names of the eleven registered measurements in the order
      the map literal lists them (BooleanFields, BooleanClauses, ..., MeshMaxDepth). The names
      themselves come from packages that are not part of this model. */
  function MeasurementFeatureKeys(names: seq<string>): (keys: map<string, int>)
    requires |names| == MeasurementCount && Distinct(names)
    ensures forall n :: n in keys <==> n in names
    ensures forall i :: 0 <= i < |names| ==> keys[names[i]] == MeasurementFeatures + i
  {
    map i | 0 <= i < |names| :: names[i] := MeasurementFeatures + i
  }

  lemma {:induction false} DistinctCardinality<T>(s: seq<T>)
    requires Distinct(s)
    ensures |set x | x in s| == |s|
  {
    if s != [] {
      var init := s[..|s| - 1];
      assert Distinct(init);
      DistinctCardinality(init);
      assert (set x | x in s) == (set x | x in init) + {s[|s| - 1]};
      assert s[|s| - 1] !in (set x | x in init);
    }
  }

  /** The id layout: with distinct registered names the map has eleven entries, the raw
      measurement ids are 18..28, injective, their deltas 29..39, and all of them lie between the
      structural ids 1..17 and the first chain-position id 41. */
  lemma FeatureLayout(names: seq<string>)
    requires |names| == MeasurementCount && Distinct(names)
    ensures |MeasurementFeatureKeys(names)| == MeasurementCount
    ensures forall n :: n in MeasurementFeatureKeys(names) ==>
              OperatorTypeFeature < MeasurementFeatureKeys(names)[n] < MeasurementFeatures + MeasurementCount
              && MeasurementFeatureKeys(names)[n] + MeasurementCount < ChainFeatures
    ensures forall n, m :: n in MeasurementFeatureKeys(names) && m in MeasurementFeatureKeys(names) && n != m ==>
              MeasurementFeatureKeys(names)[n] != MeasurementFeatureKeys(names)[m]
    ensures ChainFeatures == 41
  {
    var keys := MeasurementFeatureKeys(names);
    DistinctCardinality(names);
    assert keys.Keys == set x | x in names;
    forall n, m | n in keys && m in keys && n != m ensures keys[n] != keys[m] {
      var i :| 0 <= i < |names| && names[i] == n;
      var j :| 0 <= j < |names| && names[j] == m;
    }
  }

  /** TransformationContext (defined in a file that is not part of this model). */
  datatype TransformationContext = TransformationContext(depth: real, clauseType: real, childrenCount: real)

  /** contextFeatures: depth, clause type and children count under ids 1, 2, 3. */
  function ContextFeatures(context: TransformationContext): (r: Features)
    ensures |r| == 3
    ensures r[0] == Feature(DepthFeature, context.depth)
    ensures r[1] == Feature(ClauseTypeFeature, context.clauseType)
    ensures r[2] == Feature(ChildrenCountFeature, context.childrenCount)
  {
    [Feature(DepthFeature, context.depth),
     Feature(ClauseTypeFeature, context.clauseType),
     Feature(ChildrenCountFeature, context.childrenCount)]
  }

  /** The 0/1/2 encoding of an "exploded" or "truncated" option. */
  function OptionFlag(options: map<string, OptionValue>, name: string): real
  {
    if name !in options then 0.0
    else if options[name] == BoolOption(true) then 2.0
    else 1.0
  }

  /** keywordFeatures: exploded, truncated (0 absent, 2 boolean true, 1 any other value) and the
      number of fields. */
  function KeywordFeatures(q: Keyword): (r: Features)
    ensures |r| == 3
    ensures r[0].id == IsExplodedFeature && r[1].id == IsTruncatedFeature && r[2].id == NumFieldsFeature
    ensures r[0].score == 0.0 <==> "exploded" !in q.options
    ensures r[0].score == 2.0 <==> "exploded" in q.options && q.options["exploded"] == BoolOption(true)
    ensures r[0].score == 1.0 <==> "exploded" in q.options && q.options["exploded"] != BoolOption(true)
    ensures r[1].score == 0.0 <==> "truncated" !in q.options
    ensures r[1].score == 2.0 <==> "truncated" in q.options && q.options["truncated"] == BoolOption(true)
    ensures r[1].score == 1.0 <==> "truncated" in q.options && q.options["truncated"] != BoolOption(true)
    ensures r[2].score == |q.fields| as real
  {
    [Feature(IsExplodedFeature, OptionFlag(q.options, "exploded")),
     Feature(IsTruncatedFeature, OptionFlag(q.options, "truncated")),
     Feature(NumFieldsFeature, |q.fields| as real)]
  }

  /** booleanFeatures: the operator type, 1 or, 2 and, 3 not (lower or upper case), 4 for any
      other operator containing lower-case "adj", 0 otherwise. */
  function BooleanFeatures(q: BooleanQuery): (r: Features)
    ensures |r| == 1 && r[0].id == OperatorTypeFeature
    ensures r[0].score == 1.0 <==> q.operator == "or" || q.operator == "OR"
    ensures r[0].score == 2.0 <==> q.operator == "and" || q.operator == "AND"
    ensures r[0].score == 3.0 <==> q.operator == "not" || q.operator == "NOT"
    ensures r[0].score == 4.0 <==> q.operator !in {"or", "OR", "and", "AND", "not", "NOT"} && Contains(q.operator, "adj")
    ensures r[0].score == 0.0 <==> q.operator !in {"or", "OR", "and", "AND", "not", "NOT"} && !Contains(q.operator, "adj")
  {
    var score :=
      if q.operator == "or" || q.operator == "OR" then 1.0
      else if q.operator == "and" || q.operator == "AND" then 2.0
      else if q.operator == "not" || q.operator == "NOT" then 3.0
      else if Contains(q.operator, "adj") then 4.0
      else 0.0;
    [Feature(OperatorTypeFeature, score)]
  }

  /** Upper-case adjacency operators are not recognised: every operator without a lower-case
      'a' other than or, OR, NOT and not ("ADJ", "ADJ3", ...) encodes as 0. */
  lemma UpperCaseAdjacencyIsUnknown(q: BooleanQuery)
    requires forall i :: 0 <= i < |q.operator| ==> q.operator[i] != 'a'
    requires q.operator !in {"or", "OR", "NOT", "not", "AND"}
    ensures BooleanFeatures(q)[0].score == 0.0
  {
    forall i ensures !OccursAt(q.operator, "adj", i) {
      if 0 <= i && i + 3 <= |q.operator| {
        assert q.operator[i..i + 3][0] == q.operator[i] != 'a' == "adj"[0];
      }
    }
    assert !Contains(q.operator, "adj");
    assert |q.operator| > 0 ==> q.operator[0] != 'a';
    assert "and"[0] == 'a';
  }

  /** "ADJ3" is one of them. */
  lemma UpperCaseAdj3IsUnknown(children: seq<Query>, options: map<string, OptionValue>)
    ensures BooleanFeatures(BooleanQuery("ADJ3", children, options))[0].score == 0.0
  {
    UpperCaseAdjacencyIsUnknown(BooleanQuery("ADJ3", children, options));
  }

  /** Every lower-case adjacency operator ("adj", "adj3", ...) encodes as 4. */
  lemma AdjacencyFamily(q: BooleanQuery)
    requires |q.operator| >= 3 && q.operator[..3] == "adj"
    ensures BooleanFeatures(q)[0].score == 4.0
  {
    assert OccursAt(q.operator, "adj", 0);
    assert q.operator[1] == 'd';
  }

  /** The transformer kinds the type switch of transformationFeature knows, and everything else
      (including an adjacencyRange passed by value rather than by pointer). */
  datatype Transformer =
    | LogicalOperatorReplacement
    | AdjacencyRangePointer
    | MeshExplosion
    | FieldRestrictions
    | AdjacencyReplacement
    | OtherTransformer

  /** transformationFeature: id 4, score 1..5 for the known kinds, 0 for any other. */
  function TransformationFeature(t: Transformer): (f: Feature)
    ensures f.id == TransformationTypeFeature
    ensures 0.0 <= f.score <= 5.0
    ensures f.score == 0.0 <==> t == OtherTransformer
  {
    var score := match t
      case LogicalOperatorReplacement => 1.0
      case AdjacencyRangePointer => 2.0
      case MeshExplosion => 3.0
      case FieldRestrictions => 4.0
      case AdjacencyReplacement => 5.0
      case OtherTransformer => 0.0;
    Feature(TransformationTypeFeature, score)
  }

  /** Distinct known transformer kinds get distinct scores. */
  lemma TransformationFeatureInjective(t1: Transformer, t2: Transformer)
    requires t1 != OtherTransformer && TransformationFeature(t1) == TransformationFeature(t2)
    ensures t1 == t2
  {
  }

  /** The error deltas reports for a measurement that has no feature id. */
  function NotRegistered(name: string): Error
  {
    Error(name + " is not registed as a feature in MeasurementFeatureKeys")
  }

  /** deltas: the measurement executor's values (`executed`, one per measurement, or its error)
      keyed by each measurement's feature id. Fails with the executor's error, or at the first
      measurement whose name has no id. */
  method Deltas(keys: map<string, int>, measurements: seq<string>, executed: Result<seq<real>>)
    returns (r: Result<map<int, real>>)
    requires executed.Success? ==> |executed.value| >= |measurements|
    ensures executed.Failure? ==> r == Failure(executed.error)
    ensures executed.Success? && r.Failure? ==>
      exists i :: 0 <= i < |measurements| && measurements[i] !in keys && r.error == NotRegistered(measurements[i])
                  && forall j :: 0 <= j < i ==> measurements[j] in keys
    ensures executed.Success? ==> (r.Success? <==> forall i :: 0 <= i < |measurements| ==> measurements[i] in keys)
    ensures r.Success? ==> forall id :: id in r.value <==> exists i :: 0 <= i < |measurements| && keys[measurements[i]] == id
    ensures r.Success? ==> forall i :: 0 <= i < |measurements| && (forall j :: i < j < |measurements| ==> keys[measurements[j]] != keys[measurements[i]])
                                      ==> r.value[keys[measurements[i]]] == executed.value[i]
  {
    if executed.Failure? {
      return Failure(executed.error);
    }
    var m := executed.value;
    var deltas: map<int, real> := map[];
    var i := 0;
    while i < |measurements|
      invariant 0 <= i <= |measurements|
      invariant forall j :: 0 <= j < i ==> measurements[j] in keys
      invariant forall id :: id in deltas <==> exists j :: 0 <= j < i && keys[measurements[j]] == id
      invariant forall j :: 0 <= j < i && (forall k :: j < k < i ==> keys[measurements[k]] != keys[measurements[j]])
                          ==> deltas[keys[measurements[j]]] == m[j]
    {
      if measurements[i] in keys {
        deltas := deltas[keys[measurements[i]] := m[i]];
      } else {
        return Failure(NotRegistered(measurements[i]));
      }
      i := i + 1;
    }
    r := Success(deltas);
  }

  /** calcDelta: the pre-transformation score minus the post-transformation one, 0 when the
      post-transformation measurement is absent. */
  function CalcDelta(feature: int, score: real, post: map<int, real>): (d: real)
    ensures feature in post ==> d == score - post[feature]
    ensures feature !in post ==> d == 0.0
  {
    if feature in post then score - post[feature] else 0.0
  }

  /** The delta feature of a measurement key: id shifted past the raw measurements. */
  function DeltaFeature(k: int, pre: map<int, real>, post: map<int, real>): Feature
    requires k in pre
  {
    Feature(k + MeasurementCount, CalcDelta(k, pre[k], post))
  }

  /** computeDeltas: one feature per pre-transformation key, id shifted by the number of
      measurements, score pre - post (0 if post lacks it). Go's map order is arbitrary: `order`
      is the order the keys were visited in, and every key is visited exactly once. */
  method ComputeDeltas(pre: map<int, real>, post: map<int, real>) returns (fs: Features, ghost order: seq<int>)
    ensures |fs| == |order| == |pre|
    ensures forall i :: 0 <= i < |order| ==> order[i] in pre
    ensures forall k :: k in pre ==> k in order
    ensures forall i, j :: 0 <= i < j < |order| ==> order[i] != order[j]
    ensures forall i :: 0 <= i < |fs| ==> fs[i] == DeltaFeature(order[i], pre, post)
    ensures forall k :: k in pre ==> DeltaFeature(k, pre, post) in fs
    ensures forall i :: 0 <= i < |fs| ==>
              fs[i].id - MeasurementCount in pre && fs[i] == DeltaFeature(fs[i].id - MeasurementCount, pre, post)
  {
    fs := [];
    var rest := pre.Keys;
    order := [];
    while rest != {}
      invariant rest <= pre.Keys
      invariant |fs| == |order| && |order| + |rest| == |pre|
      invariant forall i :: 0 <= i < |order| ==> order[i] in pre && order[i] !in rest
      invariant forall k :: k in pre && k !in rest ==> k in order
      invariant forall i :: 0 <= i < |fs| ==> fs[i] == DeltaFeature(order[i], pre, post)
      invariant forall i, j :: 0 <= i < j < |order| ==> order[i] != order[j]
      invariant forall k :: k in pre && k !in rest ==> DeltaFeature(k, pre, post) in fs
      decreases |rest|
    {
      var feature := Pick(rest);
      fs := fs + [Feature(feature + MeasurementCount, CalcDelta(feature, pre[feature], post))];
      order := order + [feature];
      rest := rest - {feature};
    }
  }

  /** The delta ids are distinct and are exactly the measurement ids shifted by eleven: a delta
      never collides with another delta. */
  lemma DeltaIdsDistinct(pre: map<int, real>, post: map<int, real>, fs: Features, order: seq<int>)
    requires |fs| == |order|
    requires forall i, j :: 0 <= i < j < |order| ==> order[i] != order[j]
    requires forall i :: 0 <= i < |order| ==> order[i] in pre
    requires forall i :: 0 <= i < |fs| ==> fs[i] == DeltaFeature(order[i], pre, post)
    ensures forall i, j :: 0 <= i < j < |fs| ==> fs[i].id != fs[j].id
    ensures forall i :: 0 <= i < |fs| ==> fs[i].id - MeasurementCount in pre
  {
  }

  /** `%v:%v` of a feature. */
  function PairText(f: Feature, show: real -> string): string
  {
    IntToString(f.id) + ":" + show(f.score)
  }

  /** The renderer of Features.String: `id:score ` (trailing space). */
  function TrailingPair(show: real -> string): Feature -> string
  {
    f => PairText(f, show) + " "
  }

  /** The renderer of the LIBSVM writers: ` id:score` (leading space). */
  function LeadingPair(show: real -> string): Feature -> string
  {
    f => " " + PairText(f, show)
  }

  /** The renderer of a comment word: ` %v`. */
  function LeadingWord(): string -> string
  {
    w => " " + w
  }

  /** Features.String: sorts the slice in place, drops duplicate ids (set.Uniq) and renders
      "0 " followed by `id:score ` per kept feature. `kept` is what was printed. */
  method FeaturesString(ff: array<Feature>, show: real -> string) returns (s: string, ghost kept: Features)
    modifies ff
    ensures Deduplicated(old(ff[..]), kept, Id)
    ensures |kept| <= ff.Length && ff[..|kept|] == kept
    ensures multiset(ff[..]) == multiset(old(ff[..]))
    ensures s == "0 " + Concat(kept, TrailingPair(show))
  {
    var size := SortUnique(ff, Id);
    kept := ff[..size];
    var pairs := ConcatLoop(ff[..size], TrailingPair(show));
    s := "0 " + pairs;
  }

  /** LearntFeature: features with target scores, a topic and a comment. The feature slice is
      shared with the caller, so the writers' in-place sort is visible to it: an array here. */
  datatype LearntFeature = LearntFeature(features: array<Feature>, scores: seq<real>, topic: string, comment: string)

  /** LearntFeature.WriteLibSVM: the line `Scores[0] id:score ...` with ids sorted and unique,
      then ` #` and ` c` per comment only when comments are given. Indexing Scores[0] panics on
      an empty slice, hence the precondition. Returns the bytes handed to the writer. */
  method WriteLibSVM(lf: LearntFeature, comments: seq<string>, show: real -> string)
    returns (line: string, ghost kept: Features)
    requires |lf.scores| > 0
    modifies lf.features
    ensures Deduplicated(old(lf.features[..]), kept, Id)
    ensures multiset(lf.features[..]) == multiset(old(lf.features[..]))
    ensures |kept| <= lf.features.Length && lf.features[..|kept|] == kept
    ensures line == show(lf.scores[0]) + Concat(kept, LeadingPair(show))
                    + (if |comments| > 0 then " #" + Concat(comments, LeadingWord()) else "") + "\n"
  {
    var size := SortUnique(lf.features, Id);
    kept := lf.features[..size];
    var pairs := ConcatLoop(lf.features[..size], LeadingPair(show));
    line := show(lf.scores[0]) + pairs;
    if |comments| > 0 {
      var words := ConcatLoop(comments, LeadingWord());
      line := line + " #" + words;
    }
    line := line + "\n";
  }

  /** LearntFeature.WriteLibSVMRank: `Scores[0] qid:Topic`, the sorted unique pairs (ids as they
      are), and always ` # Comment`. */
  method WriteLibSVMRank(lf: LearntFeature, show: real -> string) returns (line: string, ghost kept: Features)
    requires |lf.scores| > 0
    modifies lf.features
    ensures Deduplicated(old(lf.features[..]), kept, Id)
    ensures multiset(lf.features[..]) == multiset(old(lf.features[..]))
    ensures |kept| <= lf.features.Length && lf.features[..|kept|] == kept
    ensures line == show(lf.scores[0]) + " qid:" + lf.topic + Concat(kept, LeadingPair(show)) + " # " + lf.comment + "\n"
  {
    var size := SortUnique(lf.features, Id);
    kept := lf.features[..size];
    var pairs := ConcatLoop(lf.features[..size], LeadingPair(show));
    line := show(lf.scores[0]) + " qid:" + lf.topic + pairs + " # " + lf.comment + "\n";
  }

  /** NewLearntFeature: the features alone, with no scores, topic or comment yet. */
  function NewLearntFeature(features: array<Feature>): (lf: LearntFeature)
    ensures lf.features == features
    ensures lf.scores == [] && lf.topic == "" && lf.comment == ""
  {
    LearntFeature(features, [], "", "")
  }

  /** The exact sum of the scores. */
  function Sum(ff: Features): real
    decreases |ff|
  {
    if ff == [] then 0.0 else Sum(ff[..|ff| - 1]) + ff[|ff| - 1].score
  }

  /** Features.AverageScore: the mean score, 0 for no features. The source's early return for a
      zero total gives the same value. */
  method AverageScore(ff: Features) returns (avg: real)
    ensures |ff| == 0 ==> avg == 0.0
    ensures |ff| > 0 ==> avg * |ff| as real == Sum(ff)
  {
    if |ff| == 0 {
      return 0.0;
    }
    var totalScore := 0.0;
    for k := 0 to |ff|
      invariant totalScore == Sum(ff[..k])
    {
      assert ff[..k + 1][..k] == ff[..k];
      totalScore := totalScore + ff[k].score;
    }
    assert ff[..|ff|] == ff;
    if totalScore == 0.0 {
      return 0.0;
    }
    avg := totalScore / |ff| as real;
  }

  lemma {:induction false} SumBounds(ff: Features, lo: real, hi: real)
    requires forall i :: 0 <= i < |ff| ==> lo <= ff[i].score <= hi
    ensures |ff| as real * lo <= Sum(ff) <= |ff| as real * hi
    decreases |ff|
  {
    if ff != [] {
      SumBounds(ff[..|ff| - 1], lo, hi);
      assert (|ff| - 1) as real * lo + lo == |ff| as real * lo;
      assert (|ff| - 1) as real * hi + hi == |ff| as real * hi;
    }
  }

  /** The average lies between the smallest and the largest score. */
  lemma AverageWithinBounds(ff: Features, avg: real, lo: real, hi: real)
    requires |ff| > 0 && avg * |ff| as real == Sum(ff)
    requires forall i :: 0 <= i < |ff| ==> lo <= ff[i].score <= hi
    ensures lo <= avg <= hi
  {
    SumBounds(ff, lo, hi);
  }

  /** TransformedQuery: the current pipeline query and the queries it was derived from. */
  datatype TransformedQuery = TransformedQuery(queryChain: seq<Query>, pipelineQuery: PipelineQuery)
  {
    /** TransformedQuery.Append: the current query joins the end of the chain and `query` becomes
        current; the receiver value is left as it was. */
    function Append(query: PipelineQuery): (t: TransformedQuery)
      ensures t.queryChain == queryChain + [pipelineQuery.query]
      ensures |t.queryChain| == |queryChain| + 1
      ensures t.pipelineQuery == query
    {
      this.(queryChain := queryChain + [pipelineQuery.query], pipelineQuery := query)
    }
  }

  /** NewTransformedQuery: `query` is current and `chain` its history. */
  function NewTransformedQuery(query: PipelineQuery, chain: seq<Query>): (t: TransformedQuery)
    ensures t.pipelineQuery == query && t.queryChain == chain
  {
    TransformedQuery(chain, query)
  }

  /** A search thread: append each query of `qs` in turn. */
  function AppendAll(t: TransformedQuery, qs: seq<PipelineQuery>): TransformedQuery
    decreases |qs|
  {
    if qs == [] then t else AppendAll(t, qs[..|qs| - 1]).Append(qs[|qs| - 1])
  }

  function QueriesOf(qs: seq<PipelineQuery>): seq<Query>
    ensures |QueriesOf(qs)| == |qs|
    ensures forall i :: 0 <= i < |qs| ==> QueriesOf(qs)[i] == qs[i].query
    decreases |qs|
  {
    if qs == [] then [] else QueriesOf(qs[..|qs| - 1]) + [qs[|qs| - 1].query]
  }

  /** History is append-only: after k appends the old chain is a prefix, followed by the old
      current query and all but the last appended query, and the last one is current. */
  lemma {:induction false} AppendAllHistory(t: TransformedQuery, qs: seq<PipelineQuery>)
    requires qs != []
    ensures AppendAll(t, qs).queryChain == t.queryChain + [t.pipelineQuery.query] + QueriesOf(qs[..|qs| - 1])
    ensures AppendAll(t, qs).pipelineQuery == qs[|qs| - 1]
    ensures |AppendAll(t, qs).queryChain| == |t.queryChain| + |qs|
    decreases |qs|
  {
    var init := qs[..|qs| - 1];
    if init == [] {
      assert AppendAll(t, init) == t;
    } else {
      AppendAllHistory(t, init);
      assert init[..|init| - 1] == qs[..|qs| - 2];
      assert QueriesOf(init) == QueriesOf(init[..|init| - 1]) + [init[|init| - 1].query];
    }
  }

  /** CandidateQuery: a candidate next query with its features, the id of the transformation that
      produced it (-1 for none) and the chain of candidates it descends from. */
  datatype CandidateQuery = CandidateQuery(features: Features, query: Query, transformationId: int, chain: seq<CandidateQuery>)
  {
    /** CandidateQuery.SetTransformationID: only the transformation id changes. */
    function SetTransformationID(id: int): (c: CandidateQuery)
      ensures c.transformationId == id
      ensures c.features == features && c.query == query && c.chain == chain
    {
      this.(transformationId := id)
    }

    /** CandidateQuery.Append: takes over the parent's chain, adds one chain-position feature per
        ancestor in it, then pushes the parent onto the chain. */
    method Append(parent: CandidateQuery) returns (c: CandidateQuery)
      ensures c.chain == parent.chain + [parent]
      ensures |c.chain| == |parent.chain| + 1
      ensures c.features == features + ChainPositionFeatures(parent.chain)
      ensures c.query == query && c.transformationId == transformationId
    {
      c := this.(chain := parent.chain);
      var idx := ChainFeatures;
      for i := 0 to |c.chain|
        invariant c.chain == parent.chain && c.query == query && c.transformationId == transformationId
        invariant c.features == features + ChainPositionFeatures(parent.chain)[..i]
      {
        assert ChainPositionFeatures(parent.chain)[..i + 1] == ChainPositionFeatures(parent.chain)[..i] + [ChainPositionFeatures(parent.chain)[i]];
        c := c.(features := c.features + [Feature(idx + i, c.chain[i].transformationId as real)]);
      }
      assert ChainPositionFeatures(parent.chain)[..|parent.chain|] == ChainPositionFeatures(parent.chain);
      c := c.(chain := c.chain + [parent]);
    }
  }

  /** The chain-position features of a chain: ancestor i has id ChainFeatures + i and its
      transformation id as score, so these ids are ascending and above every other id. */
  function ChainPositionFeatures(chain: seq<CandidateQuery>): (r: Features)
    ensures |r| == |chain|
    ensures forall i :: 0 <= i < |chain| ==> r[i] == Feature(ChainFeatures + i, chain[i].transformationId as real)
    ensures StrictlyIncreasing(r, Id)
    ensures forall i :: 0 <= i < |r| ==> r[i].id >= ChainFeatures
  {
    seq(|chain|, i requires 0 <= i < |chain| => Feature(ChainFeatures + i, chain[i].transformationId as real))
  }

  /** NewCandidateQuery: no transformation (-1) and an empty chain. */
  function NewCandidateQuery(query: Query, ff: Features): (c: CandidateQuery)
    ensures c.features == ff && c.query == query
    ensures c.transformationId == -1 && c.chain == []
  {
    CandidateQuery(ff, query, -1, [])
  }
}
