/** rewrite/feature.go: the older feature set of the rewrite package. Its Feature and
    TransformedQuery types, Feature.Set, Features.AverageScore, TransformedQuery.Append and
    NewTransformedQuery are field-for-field and line-for-line those of learning/feature.go, so
    they are the LearningFeature members; what differs is the id numbering, the QPP features,
    a String without sorting, and writers that sort but keep repeated ids. */
module RewriteFeature {
  import opened Results
  import opened Queries
  import opened Text
  import opened Sorting
  import LF = LearningFeature

  type Feature = LF.Feature
  type Features = seq<Feature>

  // The iota numbering of rewrite/feature.go:25-44.
  const DepthFeature := 0
  const ClauseTypeFeature := 1
  const ChildrenCountFeature := 2
  const LogicalReplacementTypeFeature := 3
  const AdjacencyChangeFeature := 4
  const AdjacencyDistanceFeature := 5
  const MeshDepthFeature := 6
  const RestrictionTypeFeature := 7
  const AvgIDFFeature := 8
  const SumIDFFeature := 9
  const MaxIDFFeature := 10
  const StdDevIDFFeature := 11
  const AvgICTFFeature := 12

  /** The number of pre-retrieval QPP measurements QPPFeatures asks for. */
  const QPPCount := 5

  /** ContextFeatures: depth, clause type and children count under ids 0, 1, 2. */
  function ContextFeatures(context: LF.TransformationContext): (r: Features)
    ensures |r| == 3
    ensures r[0] == LF.Feature(DepthFeature, context.depth)
    ensures r[1] == LF.Feature(ClauseTypeFeature, context.clauseType)
    ensures r[2] == LF.Feature(ChildrenCountFeature, context.childrenCount)
  {
    [LF.Feature(DepthFeature, context.depth),
     LF.Feature(ClauseTypeFeature, context.clauseType),
     LF.Feature(ChildrenCountFeature, context.childrenCount)]
  }

  /** QPPFeatures: the executor's five values (avgIDF, sumIDF, maxIDF, stdDevIDF, avgICTF of the
      query, or its error) under ids 8..12, in that order. Indexing m[i] panics when the executor
      returns fewer values, hence the precondition. */
  method QPPFeatures(executed: Result<seq<real>>) returns (r: Result<Features>)
    requires executed.Success? ==> |executed.value| >= QPPCount
    ensures executed.Failure? ==> r == Failure(executed.error)
    ensures executed.Success? ==> r.Success? && |r.value| == QPPCount
    ensures executed.Success? ==> forall i :: 0 <= i < QPPCount ==> r.value[i] == LF.Feature(AvgIDFFeature + i, executed.value[i])
  {
    var features := [AvgIDFFeature, SumIDFFeature, MaxIDFFeature, StdDevIDFFeature, AvgICTFFeature];
    if executed.Failure? {
      return Failure(executed.error);
    }
    var m := executed.value;
    var ff := new Feature[|features|](_ => LF.Feature(0, 0.0));
    for i := 0 to |features|
      invariant forall k :: 0 <= k < i ==> ff[k] == LF.Feature(features[k], m[k])
    {
      ff[i] := LF.Feature(features[i], m[i]);
    }
    r := Success(ff[..]);
  }

  /** The structural and QPP ids of one candidate never collide: the context ids are 0..2 and
      the QPP ids 8..12. */
  lemma ContextAndQPPDisjoint(context: LF.TransformationContext, qpp: Features, executed: seq<real>)
    requires |executed| >= QPPCount && |qpp| == QPPCount
    requires forall i :: 0 <= i < QPPCount ==> qpp[i] == LF.Feature(AvgIDFFeature + i, executed[i])
    ensures forall i, j :: 0 <= i < j < |ContextFeatures(context) + qpp| ==>
              (ContextFeatures(context) + qpp)[i].id < (ContextFeatures(context) + qpp)[j].id
  {
    var all := ContextFeatures(context) + qpp;
    forall i, j | 0 <= i < j < |all| ensures all[i].id < all[j].id {
      if i >= 3 {
        assert all[i] == qpp[i - 3] && all[j] == qpp[j - 3];
      } else if j >= 3 {
        assert all[j] == qpp[j - 3];
      }
    }
  }

  /** Features.String: `id:score ` per feature in slice order, no sorting and no prefix. */
  method String(ff: Features, show: real -> string) returns (s: string)
    ensures s == Concat(ff, LF.TrailingPair(show))
  {
    s := ConcatLoop(ff, LF.TrailingPair(show));
  }

  /** LearntFeature: the features (a slice shared with the caller, which sort.Sort reorders) and
      the target score. */
  datatype LearntFeature = LearntFeature(features: array<Feature>, score: real)

  /** NewLearntFeature. */
  function NewLearntFeature(score: real, features: array<Feature>): (lf: LearntFeature)
    ensures lf.features == features && lf.score == score
  {
    LearntFeature(features, score)
  }

  /** LearntFeature.WriteLibSVM: sorts the features in place by id (repeated ids are all kept)
      and returns `Score id:score ...`, then ` #` and ` c` per comment when comments are given. */
  method WriteLibSVM(lf: LearntFeature, comments: seq<string>, show: real -> string) returns (line: string)
    modifies lf.features
    ensures SortedBy(lf.features[..], LF.Id)
    ensures multiset(lf.features[..]) == multiset(old(lf.features[..]))
    ensures line == show(lf.score) + Concat(lf.features[..], LF.LeadingPair(show))
                    + (if |comments| > 0 then " #" + Concat(comments, LF.LeadingWord()) else "") + "\n"
  {
    SortBy(lf.features, LF.Id);
    var pairs := ConcatLoop(lf.features[..], LF.LeadingPair(show));
    line := show(lf.score) + pairs;
    if |comments| > 0 {
      var words := ConcatLoop(comments, LF.LeadingWord());
      line := line + " #" + words;
    }
    line := line + "\n";
  }

  /** ` id+1:score`: the rank writer numbers features from one. */
  function ShiftedPair(show: real -> string): Feature -> string
  {
    (f: Feature) => " " + IntToString(f.id + 1) + ":" + show(f.score)
  }

  /** LearntFeature.WriteLibSVMRank: sorts in place, returns `Score qid:topic` with one-based
      feature numbers and ` # comment`. */
  method WriteLibSVMRank(lf: LearntFeature, topic: int, comment: string, show: real -> string) returns (line: string)
    modifies lf.features
    ensures SortedBy(lf.features[..], LF.Id)
    ensures multiset(lf.features[..]) == multiset(old(lf.features[..]))
    ensures line == show(lf.score) + " qid:" + IntToString(topic) + Concat(lf.features[..], ShiftedPair(show))
                    + " # " + comment + "\n"
  {
    SortBy(lf.features, LF.Id);
    var pairs := ConcatLoop(lf.features[..], ShiftedPair(show));
    line := show(lf.score) + " qid:" + IntToString(topic) + pairs + " # " + comment + "\n";
  }

  /** Every id of this numbering is written as a positive feature number, as the SVM-rank format
      requires (no sign, never 0). */
  lemma RankNumbersPositive(f: Feature, show: real -> string)
    requires DepthFeature <= f.id <= AvgICTFFeature
    ensures ShiftedPair(show)(f) == " " + NatToString(f.id + 1) + ":" + show(f.score)
    ensures NatToString(f.id + 1) != "0"
  {
    NatToStringZero(f.id + 1);
  }

  /** When no id repeats, what the writers print does not depend on how the unstable sort
      happened to order the array. */
  lemma WrittenLineDetermined(input: Features, s1: Features, s2: Features, render: Feature -> string)
    requires forall i, j :: 0 <= i < |input| && 0 <= j < |input| && input[i].id == input[j].id ==> i == j
    requires SortedBy(s1, LF.Id) && multiset(s1) == multiset(input)
    requires SortedBy(s2, LF.Id) && multiset(s2) == multiset(input)
    ensures Concat(s1, render) == Concat(s2, render)
  {
    SortedOfDistinctUnique(input, s1, s2, LF.Id);
  }

  /** CandidateQuery: a candidate next query and its features. */
  datatype CandidateQuery = CandidateQuery(features: Features, query: Query)

  /** NewCandidateQuery. */
  function NewCandidateQuery(query: Query, ff: Features): (c: CandidateQuery)
    ensures c.features == ff && c.query == query
  {
    CandidateQuery(ff, query)
  }
}
