/** pipeline.go: assembling a pipeline from components, and the sequential control flow of
    Pipeline.Execute as the sequence of results it sends on its channel.

    Every collaborator is an oracle: components are opaque ids, and loading, processing,
    measuring, formatting, the evaluation workers and the model steps are the outcomes in
    `Oracle`. PipelineResult and its type tags are declared in a file that is not part of this
    model; here a result is the variant its tag selects. */
module Groove {
  import opened Results
  import opened Queries
  import opened Sorting

  /** preprocess.QueryTransformations: Boolean and Elasticsearch rewriting stages. */
  datatype QueryTransformations = QueryTransformations(booleanTransformations: seq<nat>, elasticsearchTransformations: seq<nat>)

  /** ModelConfiguration: which model actions to run. */
  datatype ModelConfiguration = ModelConfiguration(generate: bool, train: bool, test: bool)

  /** EvaluationOutputFormat: evaluation formatters and the qrels they judge against. */
  datatype EvaluationOutputFormat = EvaluationOutputFormat(evaluationFormatters: seq<nat>, evaluationQrels: nat)

  /** output.TrecResults: where to write TREC run files. */
  datatype TrecResults = TrecResults(path: string)

  /** Pipeline. The query cache and measurement executor Execute installs for itself are not
      modelled. */
  datatype Pipeline = Pipeline(
    queryPath: string,
    queriesSource: nat,
    statisticsSource: StatisticsSource,
    preprocess: seq<nat>,
    transformations: QueryTransformations,
    measurements: seq<nat>,
    measurementFormatters: seq<nat>,
    evaluations: seq<nat>,
    evaluationFormatters: EvaluationOutputFormat,
    outputTrec: TrecResults,
    model: Option<nat>,
    modelConfiguration: ModelConfiguration)

  /** The value a component closure returns, by its dynamic type. */
  datatype Component =
    | Processors(processors: seq<nat>)
    | MeasurementList(measurements: seq<nat>)
    | MeasurementFormatters(formatters: seq<nat>)
    | Transformations(transformations: QueryTransformations)
    | TrecOutputValue(trec: TrecResults)
    | EvaluationOutputValue(format: EvaluationOutputFormat)
    | OtherValue

  /** Preprocess: a component holding query processors. */
  function Preprocess(processors: seq<nat>): (c: Component)
    ensures IsProcessors(c) && c.processors == processors
  {
    Processors(processors)
  }

  /** MeasurementOutput: a component holding measurement formatters. */
  function MeasurementOutput(formatters: seq<nat>): (c: Component)
    ensures IsMeasurementFormatters(c) && c.formatters == formatters
  {
    MeasurementFormatters(formatters)
  }

  /** TrecOutput: a component holding a TrecResults value, a type NewGroovePipeline does not
      dispatch on. */
  function TrecOutput(path: string): (c: Component)
    ensures Ignored(c) && c.TrecOutputValue? && c.trec.path == path
  {
    TrecOutputValue(TrecResults(path))
  }

  /** EvaluationOutput, given the qrels already read and parsed: a component holding an
      EvaluationOutputFormat, also a type NewGroovePipeline does not dispatch on. */
  function EvaluationOutput(qrels: nat, formatters: seq<nat>): (c: Component)
    ensures Ignored(c) && c.EvaluationOutputValue? && c.format == EvaluationOutputFormat(formatters, qrels)
  {
    EvaluationOutputValue(EvaluationOutputFormat(formatters, qrels))
  }

  predicate IsProcessors(c: Component) { c.Processors? }
  predicate IsMeasurementList(c: Component) { c.MeasurementList? }
  predicate IsMeasurementFormatters(c: Component) { c.MeasurementFormatters? }
  predicate IsTransformations(c: Component) { c.Transformations? }

  // The value each case of the type switch stores.
  function ProcessorsOf(c: Component): seq<nat> { if c.Processors? then c.processors else [] }
  function MeasurementsOf(c: Component): seq<nat> { if c.MeasurementList? then c.measurements else [] }
  function FormattersOf(c: Component): seq<nat> { if c.MeasurementFormatters? then c.formatters else [] }
  function TransformationsOf(c: Component): QueryTransformations
  {
    if c.Transformations? then c.transformations else QueryTransformations([], [])
  }

  /** The values the type switch has no case for. */
  predicate Ignored(c: Component)
  {
    !IsProcessors(c) && !IsMeasurementList(c) && !IsMeasurementFormatters(c) && !IsTransformations(c)
  }

  /** `cs[i]` is of the given kind, and no later component is. */
  ghost predicate LastOfKind(cs: seq<Component>, i: int, kind: Component -> bool)
  {
    0 <= i < |cs| && kind(cs[i]) && forall j :: i < j < |cs| ==> !kind(cs[j])
  }

  ghost predicate NoneOfKind(cs: seq<Component>, kind: Component -> bool)
  {
    forall i :: 0 <= i < |cs| ==> !kind(cs[i])
  }

  /** A field fed by one kind of component holds the value of the last such component, or its
      default when there is none. */
  ghost predicate LastWins<T>(cs: seq<Component>, kind: Component -> bool, value: Component -> T, field: T, default: T)
  {
    && (NoneOfKind(cs, kind) ==> field == default)
    && (forall i :: LastOfKind(cs, i, kind) ==> field == value(cs[i]))
  }

  /** What NewGroovePipeline promises: the two sources as given; each dispatched field holds the
      last component of its type, or is empty when there is none; everything else is unset. */
  ghost predicate IsConfigured(qs: nat, ss: StatisticsSource, cs: seq<Component>, gp: Pipeline)
  {
    && gp.queriesSource == qs && gp.statisticsSource == ss
    && gp.queryPath == "" && gp.evaluations == [] && gp.evaluationFormatters == EvaluationOutputFormat([], 0)
    && gp.outputTrec == TrecResults("") && gp.model == None && gp.modelConfiguration == ModelConfiguration(false, false, false)
    && LastWins(cs, IsProcessors, ProcessorsOf, gp.preprocess, [])
    && LastWins(cs, IsMeasurementList, MeasurementsOf, gp.measurements, [])
    && LastWins(cs, IsMeasurementFormatters, FormattersOf, gp.measurementFormatters, [])
    && LastWins(cs, IsTransformations, TransformationsOf, gp.transformations, QueryTransformations([], []))
  }

  /** NewGroovePipeline: dispatches each component value on its type into its field. */
  method NewGroovePipeline(qs: nat, ss: StatisticsSource, components: seq<Component>) returns (gp: Pipeline)
    ensures IsConfigured(qs, ss, components, gp)
  {
    gp := Pipeline("", qs, ss, [], QueryTransformations([], []), [], [], [],
                   EvaluationOutputFormat([], 0), TrecResults(""), None, ModelConfiguration(false, false, false));
    for k := 0 to |components|
      invariant IsConfigured(qs, ss, components[..k], gp)
    {
      ghost var before := gp;
      match components[k] {
        case Processors(v) => gp := gp.(preprocess := v);
        case MeasurementList(v) => gp := gp.(measurements := v);
        case MeasurementFormatters(v) => gp := gp.(measurementFormatters := v);
        case Transformations(v) => gp := gp.(transformations := v);
        case TrecOutputValue(_) =>
        case EvaluationOutputValue(_) =>
        case OtherValue =>
      }
      LastWinsStep(components, k, IsProcessors, ProcessorsOf, before.preprocess, gp.preprocess, []);
      LastWinsStep(components, k, IsMeasurementList, MeasurementsOf, before.measurements, gp.measurements, []);
      LastWinsStep(components, k, IsMeasurementFormatters, FormattersOf,
                   before.measurementFormatters, gp.measurementFormatters, []);
      LastWinsStep(components, k, IsTransformations, TransformationsOf,
                   before.transformations, gp.transformations, QueryTransformations([], []));
    }
    assert components[..|components|] == components;
  }

  /** Appending a component keeps LastWins when the field takes that component's value exactly
      when it is of the kind. */
  lemma LastWinsStep<T>(all: seq<Component>, k: nat, kind: Component -> bool, value: Component -> T,
                        before: T, after: T, default: T)
    requires k < |all| && LastWins(all[..k], kind, value, before, default)
    requires after == if kind(all[k]) then value(all[k]) else before
    ensures LastWins(all[..k + 1], kind, value, after, default)
  {
    var cs, c := all[..k], all[k];
    var cs' := all[..k + 1];
    assert cs' == cs + [c];
    if !kind(c) {
      if NoneOfKind(cs', kind) {
        assert forall i :: 0 <= i < |cs| ==> cs[i] == cs'[i];
      }
      forall i | LastOfKind(cs', i, kind) ensures after == value(cs'[i]) {
        assert i < |cs| && cs[i] == cs'[i];
        assert forall j :: i < j < |cs| ==> cs[j] == cs'[j];
        assert LastOfKind(cs, i, kind);
      }
    } else {
      assert cs'[|cs|] == c;
    }
  }

  lemma LastExists(cs: seq<Component>, kind: Component -> bool)
    requires !NoneOfKind(cs, kind)
    ensures exists i :: LastOfKind(cs, i, kind)
    decreases |cs|
  {
    if kind(cs[|cs| - 1]) {
      assert LastOfKind(cs, |cs| - 1, kind);
    } else {
      var init := cs[..|cs| - 1];
      assert !NoneOfKind(init, kind);
      LastExists(init, kind);
      var i :| LastOfKind(init, i, kind);
      assert LastOfKind(cs, i, kind);
    }
  }

  lemma LastWinsDetermined<T>(cs: seq<Component>, kind: Component -> bool, value: Component -> T, f1: T, f2: T, default: T)
    requires LastWins(cs, kind, value, f1, default) && LastWins(cs, kind, value, f2, default)
    ensures f1 == f2
  {
    if !NoneOfKind(cs, kind) {
      LastExists(cs, kind);
    }
  }

  /** The components determine the pipeline: there is exactly one configured result. */
  lemma ConfigurationDetermined(qs: nat, ss: StatisticsSource, cs: seq<Component>, g1: Pipeline, g2: Pipeline)
    requires IsConfigured(qs, ss, cs, g1) && IsConfigured(qs, ss, cs, g2)
    ensures g1 == g2
  {
    LastWinsDetermined(cs, IsProcessors, ProcessorsOf, g1.preprocess, g2.preprocess, []);
    LastWinsDetermined(cs, IsMeasurementList, MeasurementsOf, g1.measurements, g2.measurements, []);
    LastWinsDetermined(cs, IsMeasurementFormatters, FormattersOf, g1.measurementFormatters, g2.measurementFormatters, []);
    LastWinsDetermined(cs, IsTransformations, TransformationsOf, g1.transformations, g2.transformations,
                       QueryTransformations([], []));
  }

  /** Inserting a component of another kind anywhere keeps LastWins. */
  lemma LastWinsIgnores<T>(cs1: seq<Component>, c: Component, cs2: seq<Component>, kind: Component -> bool,
                           value: Component -> T, field: T, default: T)
    requires !kind(c) && LastWins(cs1 + cs2, kind, value, field, default)
    ensures LastWins(cs1 + [c] + cs2, kind, value, field, default)
  {
    var cs, cs' := cs1 + cs2, cs1 + [c] + cs2;
    if NoneOfKind(cs', kind) {
      forall i | 0 <= i < |cs| ensures !kind(cs[i]) {
        if i < |cs1| { assert cs[i] == cs'[i]; } else { assert cs[i] == cs'[i + 1]; }
      }
    }
    forall i | LastOfKind(cs', i, kind) ensures field == value(cs'[i]) {
      var i' := if i < |cs1| then i else i - 1;
      forall j | i' < j < |cs| ensures !kind(cs[j]) {
        if j < |cs1| { assert cs[j] == cs'[j]; } else { assert cs[j] == cs'[j + 1]; }
      }
      if i < |cs1| { assert cs[i] == cs'[i]; } else { assert cs[i - 1] == cs'[i]; }
      assert LastOfKind(cs, i', kind);
    }
  }

  /** A component of a type without a case (a TrecOutput or EvaluationOutput value, say)
      changes nothing, wherever it is passed. */
  lemma IgnoredComponentChangesNothing(qs: nat, ss: StatisticsSource, cs1: seq<Component>, c: Component,
                                       cs2: seq<Component>, gp: Pipeline)
    requires Ignored(c) && IsConfigured(qs, ss, cs1 + cs2, gp)
    ensures IsConfigured(qs, ss, cs1 + [c] + cs2, gp)
  {
    LastWinsIgnores(cs1, c, cs2, IsProcessors, ProcessorsOf, gp.preprocess, []);
    LastWinsIgnores(cs1, c, cs2, IsMeasurementList, MeasurementsOf, gp.measurements, []);
    LastWinsIgnores(cs1, c, cs2, IsMeasurementFormatters, FormattersOf, gp.measurementFormatters, []);
    LastWinsIgnores(cs1, c, cs2, IsTransformations, TransformationsOf, gp.transformations, QueryTransformations([], []));
  }

  /** The results Execute sends, by type tag. */
  datatype PipelineResult =
    | ErrorResult(topic: string, error: Error)
    | MeasurementResult(measurements: seq<string>)
    | TrecResult(topic: string)
    | TransformationResult(name: string, topic: string, transformation: Query)
    | EvaluationResult(evaluations: seq<string>)
    | DoneResult

  /** What the collaborators do in one run. `process`, `booleanTransform` and `elasticTransform`
      apply one stage (by id) to a query; `booleanClauses` is the number of Boolean sub-queries
      the sort compares; `measure` executes a measurement on a query against the statistics
      source; `format` runs a measurement formatter on topics, headers and data; `worker` is
      the evaluation goroutine's error for a query (None when it ran through);
      `evaluationFormat` is an evaluation formatter's outcome; the last three are the model's
      Generate, Train and Test errors. */
  datatype Oracle = Oracle(
    load: Result<seq<PipelineQuery>>,
    process: (Query, nat) -> Query,
    booleanTransform: (Query, nat) -> Query,
    elasticTransform: (Query, nat) -> Query,
    booleanClauses: Query -> nat,
    measure: (nat, PipelineQuery) -> Result<real>,
    measurementName: nat -> string,
    format: (nat, seq<string>, seq<string>, seq<seq<real>>) -> Result<string>,
    worker: PipelineQuery -> Option<Error>,
    evaluationFormat: nat -> Result<string>,
    generate: Option<Error>,
    train: Option<Error>,
    test: Option<Error>)

  /** The stages applied to a query one after the other, in list order. */
  function ApplyAll(q: Query, stages: seq<nat>, f: (Query, nat) -> Query): Query
    decreases |stages|
  {
    if stages == [] then q else f(ApplyAll(q, stages[..|stages| - 1], f), stages[|stages| - 1])
  }

  /** Running two stage lists is running their concatenation: stages compose in order. */
  lemma {:induction false} ApplyAllAppend(q: Query, s1: seq<nat>, s2: seq<nat>, f: (Query, nat) -> Query)
    ensures ApplyAll(q, s1 + s2, f) == ApplyAll(ApplyAll(q, s1, f), s2, f)
    decreases |s2|
  {
    if s2 == [] {
      assert s1 + s2 == s1;
    } else {
      assert (s1 + s2)[..|s1 + s2| - 1] == s1 + s2[..|s2| - 1];
      ApplyAllAppend(q, s1, s2[..|s2| - 1], f);
    }
  }

  /** One query after the preprocessing fold: processors, then Boolean transformations, then
      Elasticsearch transformations; name and topic are kept. */
  function Processed(p: Pipeline, o: Oracle, q: PipelineQuery): (r: PipelineQuery)
    ensures r.name == q.name && r.topic == q.topic
  {
    var processed := ApplyAll(q.query, p.preprocess, o.process);
    var rewritten := ApplyAll(processed, p.transformations.booleanTransformations, o.booleanTransform);
    PipelineQuery(q.name, q.topic, ApplyAll(rewritten, p.transformations.elasticsearchTransformations, o.elasticTransform))
  }

  /** log.Fatal at line 198: reached on the first query when Elasticsearch transformations are
      configured but the statistics source is not the Elasticsearch one. */
  predicate Fatal(p: Pipeline, queries: seq<PipelineQuery>)
  {
    |queries| > 0 && |p.transformations.elasticsearchTransformations| > 0 && !p.statisticsSource.isElasticsearch
  }

  /** The sort key: the number of Boolean sub-queries. */
  function ClauseKey(o: Oracle): PipelineQuery -> int
  {
    (q: PipelineQuery) => o.booleanClauses(q.query) as int
  }

  /** The outcomes of one measurement on each query, in query order. */
  function Row(m: nat, qs: seq<PipelineQuery>, measure: (nat, PipelineQuery) -> Result<real>): (r: seq<Result<real>>)
    ensures |r| == |qs| && forall qi :: 0 <= qi < |qs| ==> r[qi] == measure(m, qs[qi])
  {
    seq(|qs|, qi requires 0 <= qi < |qs| => measure(m, qs[qi]))
  }

  /** One row of the measurement matrix, or the first error on it. */
  function MeasureRow(m: nat, qs: seq<PipelineQuery>, measure: (nat, PipelineQuery) -> Result<real>): Result<seq<real>>
  {
    Collect(Row(m, qs, measure))
  }

  function Rows(ms: seq<nat>, qs: seq<PipelineQuery>, measure: (nat, PipelineQuery) -> Result<real>): (r: seq<Result<seq<real>>>)
    ensures |r| == |ms| && forall i :: 0 <= i < |ms| ==> r[i] == MeasureRow(ms[i], qs, measure)
  {
    seq(|ms|, i requires 0 <= i < |ms| => MeasureRow(ms[i], qs, measure))
  }

  /** The measurement matrix `data[measurement][query]`, filled measurement by measurement, or
      the first error in that order. */
  function MeasureAll(ms: seq<nat>, qs: seq<PipelineQuery>, measure: (nat, PipelineQuery) -> Result<real>): Result<seq<seq<real>>>
  {
    Collect(Rows(ms, qs, measure))
  }

  /** On success the matrix has one row per measurement and one column per query, and cell
      (i, qi) is measurement i on query qi. */
  lemma MeasureAllSuccess(ms: seq<nat>, qs: seq<PipelineQuery>, measure: (nat, PipelineQuery) -> Result<real>)
    requires MeasureAll(ms, qs, measure).Success?
    ensures |MeasureAll(ms, qs, measure).value| == |ms|
    ensures forall i :: 0 <= i < |ms| ==> |MeasureAll(ms, qs, measure).value[i]| == |qs|
    ensures forall i, qi :: 0 <= i < |ms| && 0 <= qi < |qs| ==>
              measure(ms[i], qs[qi]) == Success(MeasureAll(ms, qs, measure).value[i][qi])
  {
    var data := MeasureAll(ms, qs, measure).value;
    CollectSuccess(Rows(ms, qs, measure));
    forall i | 0 <= i < |ms|
      ensures |data[i]| == |qs|
      ensures forall qi :: 0 <= qi < |qs| ==> measure(ms[i], qs[qi]) == Success(data[i][qi])
    {
      CollectSuccess(Row(ms[i], qs, measure));
    }
  }

  /** On failure the error is that of the first failing (measurement, query) pair in row-major
      order: every earlier measurement succeeded on every query, and this one on every earlier
      query. */
  lemma MeasureAllFailure(ms: seq<nat>, qs: seq<PipelineQuery>, measure: (nat, PipelineQuery) -> Result<real>)
    requires MeasureAll(ms, qs, measure).Failure?
    ensures exists i, qi :: 0 <= i < |ms| && 0 <= qi < |qs|
              && measure(ms[i], qs[qi]) == Failure(MeasureAll(ms, qs, measure).error)
              && (forall j, qj :: 0 <= j < i && 0 <= qj < |qs| ==> measure(ms[j], qs[qj]).Success?)
              && (forall qj :: 0 <= qj < qi ==> measure(ms[i], qs[qj]).Success?)
  {
    var rows := Rows(ms, qs, measure);
    CollectFailure(rows);
    var i :| 0 <= i < |rows| && rows[i] == Failure(Collect(rows).error) && forall j :: 0 <= j < i ==> rows[j].Success?;
    var row := Row(ms[i], qs, measure);
    CollectFailure(row);
    var qi :| 0 <= qi < |row| && row[qi] == Failure(Collect(row).error) && forall qj :: 0 <= qj < qi ==> row[qj].Success?;
    forall j, qj | 0 <= j < i && 0 <= qj < |qs| ensures measure(ms[j], qs[qj]).Success? {
      assert rows[j].Success?;
      CollectSuccess(Row(ms[j], qs, measure));
    }
    assert measure(ms[i], qs[qi]) == Failure(MeasureAll(ms, qs, measure).error);
  }

  /** Topic labels: the name of each query, in the order given. */
  function Topics(qs: seq<PipelineQuery>): (ts: seq<string>)
    ensures |ts| == |qs| && forall qi :: 0 <= qi < |qs| ==> ts[qi] == qs[qi].name
  {
    seq(|qs|, qi requires 0 <= qi < |qs| => qs[qi].name)
  }

  /** Each measurement formatter's outcome on the topics, headers and data. */
  function Formatted(fs: seq<nat>, topics: seq<string>, headers: seq<string>, data: seq<seq<real>>,
                     format: (nat, seq<string>, seq<string>, seq<seq<real>>) -> Result<string>): (r: seq<Result<string>>)
    ensures |r| == |fs| && forall i :: 0 <= i < |fs| ==> r[i] == format(fs[i], topics, headers, data)
  {
    seq(|fs|, i requires 0 <= i < |fs| => format(fs[i], topics, headers, data))
  }

  /** The measurement phase, with the formatters given `topics` as the column labels: only with
      measurement formatters; the first measurement error ends the run with one Error;
      otherwise every formatter runs on the matrix, the first formatter error ends the run with
      one Error, and success sends one Measurement result. The result's second half says
      whether Execute returns here. */
  function MeasurementPhase(p: Pipeline, o: Oracle, topics: seq<string>, sorted: seq<PipelineQuery>): (seq<PipelineResult>, bool)
  {
    if |p.measurementFormatters| == 0 then ([], false)
    else match MeasureAll(p.measurements, sorted, o.measure)
      case Failure(e) => ([ErrorResult("", e)], true)
      case Success(data) =>
        match Collect(Formatted(p.measurementFormatters, topics, Each(p.measurements, o.measurementName), data, o.format))
        case Failure(e) => ([ErrorResult("", e)], true)
        case Success(outputs) => ([MeasurementResult(outputs)], false)
  }

  /** The measurement phase as lines 180-182 and 248 have it: the labels are collected in load
      order, before the sort reorders the columns. The phase still sends at most one result, and
      the labels only matter once every measurement has succeeded: a measurement error ends the
      run exactly as in the corrected phase. */
  function MeasurementPhaseAsWritten(p: Pipeline, o: Oracle, loaded: seq<PipelineQuery>, sorted: seq<PipelineQuery>): (r: (seq<PipelineResult>, bool))
    ensures |p.measurementFormatters| == 0 <==> r == ([], false)
    ensures |p.measurementFormatters| > 0 ==> |r.0| == 1
    ensures |p.measurementFormatters| > 0 && MeasureAll(p.measurements, sorted, o.measure).Failure? ==>
              r == MeasurementPhase(p, o, Topics(sorted), sorted)
  {
    MeasurementPhase(p, o, Topics(loaded), sorted)
  }

  /** As written, a column is labelled with another query's name. Load "b" (two Boolean
      sub-queries) and then "a" (one): the sort puts "a" first, so column 0 holds a's
      measurement, but a formatter that prints the label of column 0 prints "b". With the labels
      taken from the sorted queries it prints "a". */
  lemma MeasurementLabelsAsWrittenMismatch(p: Pipeline, o: Oracle, k: Keyword, c: BooleanQuery)
    requires o.booleanClauses(BooleanNode(c)) == 2 && o.booleanClauses(KeywordQuery(k)) == 1
    requires p.measurements == [0] && p.measurementFormatters == [0]
    requires forall q: PipelineQuery :: o.measure(0, q) == Success(1.0)
    requires forall ts, hs, d :: o.format(0, ts, hs, d) == Success(if ts == [] then "" else ts[0])
    ensures var loaded := [PipelineQuery("b", "1", BooleanNode(c)), PipelineQuery("a", "2", KeywordQuery(k))];
            var sorted := [loaded[1], loaded[0]];
            && SortedBy(sorted, ClauseKey(o)) && multiset(sorted) == multiset(loaded)
            && MeasurementPhaseAsWritten(p, o, loaded, sorted) == ([MeasurementResult(["b"])], false)
            && MeasurementPhase(p, o, Topics(sorted), sorted) == ([MeasurementResult([sorted[0].name])], false)
            && sorted[0].name == "a"
  {
    var loaded := [PipelineQuery("b", "1", BooleanNode(c)), PipelineQuery("a", "2", KeywordQuery(k))];
    var sorted := [loaded[1], loaded[0]];
    assert multiset(sorted) == multiset(loaded) by {
      assert sorted == [loaded[1]] + [loaded[0]] && loaded == [loaded[0]] + [loaded[1]];
    }
    var row := Row(0, sorted, o.measure);
    assert row[0] == o.measure(0, sorted[0]) == Success(1.0);
    assert row[1] == o.measure(0, sorted[1]) == Success(1.0);
    var r1 := row[..1];
    assert r1[..0] == [] && r1[0] == row[0];
    assert Collect(r1[..0]) == Success([]);
    assert [] + [1.0] == [1.0] && [1.0] + [1.0] == [1.0, 1.0] && [] + [[1.0, 1.0]] == [[1.0, 1.0]];
    assert [] + ["a"] == ["a"] && [] + ["b"] == ["b"];
    assert Collect(r1) == Success([1.0]);
    assert row[..|row| - 1] == r1;
    assert MeasureRow(0, sorted, o.measure) == Success([1.0, 1.0]);
    var rows := Rows([0], sorted, o.measure);
    assert rows[..0] == [] && rows[0] == MeasureRow(0, sorted, o.measure);
    assert Collect(rows[..0]) == Success([]);
    assert MeasureAll([0], sorted, o.measure) == Success([[1.0, 1.0]]);
    var data := [[1.0, 1.0]];
    var headers := Each(p.measurements, o.measurementName);
    var asWritten := Formatted([0], Topics(loaded), headers, data, o.format);
    assert asWritten[..0] == [] && asWritten[0] == Success("b");
    assert Collect(asWritten[..0]) == Success([]);
    var corrected := Formatted([0], Topics(sorted), headers, data, o.format);
    assert corrected[..0] == [] && corrected[0] == Success("a");
    assert Collect(corrected[..0]) == Success([]);
  }

  /** The gate of the evaluation phase. */
  predicate EvaluationGate(p: Pipeline)
  {
    |p.evaluations| > 0 && (|p.outputTrec.path| > 0 || |p.evaluationFormatters.evaluationFormatters| > 0)
  }

  /** What an evaluation worker sends for one query: its error, or the TREC results (when a
      path is set) and then the query's transformation. */
  function WorkerEmitted(p: Pipeline, o: Oracle, q: PipelineQuery): seq<PipelineResult>
  {
    match o.worker(q)
    case Some(e) => [ErrorResult(q.topic, e)]
    case None => (if |p.outputTrec.path| > 0 then [TrecResult(q.topic)] else []) + [TransformationResult(q.name, q.topic, q.query)]
  }

  function WorkersEmitted(p: Pipeline, o: Oracle, qs: seq<PipelineQuery>): seq<PipelineResult>
    decreases |qs|
  {
    if qs == [] then [] else WorkersEmitted(p, o, qs[..|qs| - 1]) + WorkerEmitted(p, o, qs[|qs| - 1])
  }

  /** The evaluation phase: nothing unless the gate holds; then every worker's results, and then
      either the first evaluation formatter error (Execute returns) or one Evaluation result. */
  function EvaluationPhase(p: Pipeline, o: Oracle, sorted: seq<PipelineQuery>): (seq<PipelineResult>, bool)
  {
    if !EvaluationGate(p) then ([], false)
    else match Collect(Each(p.evaluationFormatters.evaluationFormatters, o.evaluationFormat))
      case Failure(e) => (WorkersEmitted(p, o, sorted) + [ErrorResult("", e)], true)
      case Success(out) => (WorkersEmitted(p, o, sorted) + [EvaluationResult(out)], false)
  }

  /** The model phase: Generate, Train and Test in that order, each only if configured; the
      first error is sent and Execute returns. */
  function ModelPhase(p: Pipeline, o: Oracle): (seq<PipelineResult>, bool)
  {
    if p.model.None? then ([], false)
    else if p.modelConfiguration.generate && o.generate.Some? then ([ErrorResult("", o.generate.value)], true)
    else if p.modelConfiguration.train && o.train.Some? then ([ErrorResult("", o.train.value)], true)
    else if p.modelConfiguration.test && o.test.Some? then ([ErrorResult("", o.test.value)], true)
    else ([], false)
  }

  /** What the query phases send: measurement and evaluation, and whether Execute returns. */
  function QueryPhases(p: Pipeline, o: Oracle, sorted: seq<PipelineQuery>): (seq<PipelineResult>, bool)
  {
    var (m, mStop) := MeasurementPhase(p, o, Topics(sorted), sorted);
    if mStop then (m, true)
    else
      var (e, eStop) := EvaluationPhase(p, o, sorted);
      (m + e, eStop)
  }

  /** Everything Execute sends, and whether the process exits (log.Fatal) instead of returning.
      `sorted` is the preprocessed queries after the sort. */
  function Trace(p: Pipeline, o: Oracle, sorted: seq<PipelineQuery>): (seq<PipelineResult>, bool)
  {
    if |p.queryPath| > 0 && o.load.Failure? then ([ErrorResult("", o.load.error)], false)
    else if |p.queryPath| > 0 && Fatal(p, o.load.value) then ([], true)
    else
      var (q, qStop) := if |p.queryPath| > 0 then QueryPhases(p, o, sorted) else ([], false);
      if qStop then (q, false)
      else
        var (md, mdStop) := ModelPhase(p, o);
        (q + md + (if mdStop then [] else [DoneResult]), false)
  }

  /** Runs one kind of stage over a query. */
  method RunStages(q: PipelineQuery, stages: seq<nat>, f: (Query, nat) -> Query) returns (r: PipelineQuery)
    ensures r == PipelineQuery(q.name, q.topic, ApplyAll(q.query, stages, f))
  {
    r := q;
    for k := 0 to |stages|
      invariant r == PipelineQuery(q.name, q.topic, ApplyAll(q.query, stages[..k], f))
    {
      assert stages[..k + 1][..k] == stages[..k];
      r := PipelineQuery(r.name, r.topic, f(r.query, stages[k]));
    }
    assert stages[..|stages|] == stages;
  }

  /** The Elasticsearch stages, each of which first checks the statistics source. */
  method RunElasticStages(q: PipelineQuery, stages: seq<nat>, ss: StatisticsSource, f: (Query, nat) -> Query)
    returns (r: PipelineQuery, fatal: bool)
    ensures fatal <==> |stages| > 0 && !ss.isElasticsearch
    ensures !fatal ==> r == PipelineQuery(q.name, q.topic, ApplyAll(q.query, stages, f))
  {
    r := q;
    for k := 0 to |stages|
      invariant k > 0 ==> ss.isElasticsearch
      invariant r == PipelineQuery(q.name, q.topic, ApplyAll(q.query, stages[..k], f))
    {
      if !ss.isElasticsearch {
        return r, true;
      }
      assert stages[..k + 1][..k] == stages[..k];
      r := PipelineQuery(r.name, r.topic, f(r.query, stages[k]));
    }
    assert stages[..|stages|] == stages;
    fatal := false;
  }

  /** One measurement over all queries, stopping at the first error (lines 228-237). */
  method RunMeasurement(m: nat, qs: seq<PipelineQuery>, measure: (nat, PipelineQuery) -> Result<real>)
    returns (r: Result<seq<real>>)
    ensures r == MeasureRow(m, qs, measure)
  {
    ghost var outcomes := Row(m, qs, measure);
    var row: seq<real> := [];
    for qi := 0 to |qs|
      invariant Collect(outcomes[..qi]) == Success(row)
    {
      assert outcomes[..qi + 1][..qi] == outcomes[..qi];
      var v := measure(m, qs[qi]);
      if v.Failure? {
        CollectPrefixFailure(outcomes, qi + 1);
        return Failure(v.error);
      }
      row := row + [v.value];
    }
    assert outcomes[..|qs|] == outcomes;
    r := Success(row);
  }

  /** A failure in a prefix is the failure of the whole sequence. */
  lemma {:induction false} CollectPrefixFailure<T>(rs: seq<Result<T>>, n: nat)
    requires n <= |rs| && Collect(rs[..n]).Failure?
    ensures Collect(rs) == Collect(rs[..n])
    decreases |rs| - n
  {
    if n < |rs| {
      assert rs[..n + 1][..n] == rs[..n];
      CollectPrefixFailure(rs, n + 1);
    } else {
      assert rs[..n] == rs;
    }
  }

  /** Every measurement over all queries, with the headers (lines 224-238). */
  method RunMeasurements(ms: seq<nat>, qs: seq<PipelineQuery>, measure: (nat, PipelineQuery) -> Result<real>, name: nat -> string)
    returns (headers: seq<string>, data: Result<seq<seq<real>>>)
    ensures headers == Each(ms, name)
    ensures data == MeasureAll(ms, qs, measure)
  {
    ghost var rows := Rows(ms, qs, measure);
    headers := Each(ms, name);
    var matrix: seq<seq<real>> := [];
    for i := 0 to |ms|
      invariant Collect(rows[..i]) == Success(matrix)
    {
      assert rows[..i + 1][..i] == rows[..i];
      var row := RunMeasurement(ms[i], qs, measure);
      if row.Failure? {
        CollectPrefixFailure(rows, i + 1);
        return headers, Failure(row.error);
      }
      matrix := matrix + [row.value];
    }
    assert rows[..|ms|] == rows;
    data := Success(matrix);
  }

  /** The formatter loop (lines 241-256). The length check sends an Error without stopping;
      its `mismatch` output is proved always empty. */
  method RunFormatters(fs: seq<nat>, topics: seq<string>, headers: seq<string>, data: seq<seq<real>>,
                       format: (nat, seq<string>, seq<string>, seq<seq<real>>) -> Result<string>)
    returns (mismatch: seq<PipelineResult>, r: Result<seq<string>>)
    requires |data| > 0 ==> |topics| == |data[0]|
    ensures mismatch == []
    ensures r == Collect(Formatted(fs, topics, headers, data, format))
  {
    ghost var outcomes := Formatted(fs, topics, headers, data, format);
    mismatch := [];
    var outputs: seq<string> := [];
    for i := 0 to |fs|
      invariant Collect(outcomes[..i]) == Success(outputs)
      invariant mismatch == []
    {
      if |data| > 0 && |topics| != |data[0]| {
        mismatch := mismatch + [ErrorResult("", Error("the length of topics and data must be the same"))];
      }
      assert outcomes[..i + 1][..i] == outcomes[..i];
      var out := format(fs[i], topics, headers, data);
      if out.Failure? {
        CollectPrefixFailure(outcomes, i + 1);
        return mismatch, Failure(out.error);
      }
      outputs := outputs + [out.value];
    }
    assert outcomes[..|fs|] == outcomes;
    r := Success(outputs);
  }

  /** The measurement phase of Execute (lines 217-261). */
  method RunMeasurementPhase(p: Pipeline, o: Oracle, topics: seq<string>, sorted: seq<PipelineQuery>)
    returns (emitted: seq<PipelineResult>, stop: bool)
    requires |topics| == |sorted|
    ensures (emitted, stop) == MeasurementPhase(p, o, topics, sorted)
  {
    if |p.measurementFormatters| == 0 {
      return [], false;
    }
    var headers, data := RunMeasurements(p.measurements, sorted, o.measure, o.measurementName);
    if data.Failure? {
      return [ErrorResult("", data.error)], true;
    }
    MeasureAllSuccess(p.measurements, sorted, o.measure);
    var mismatch, outputs := RunFormatters(p.measurementFormatters, topics, headers, data.value, o.format);
    assert mismatch == [];
    if outputs.Failure? {
      return [ErrorResult("", outputs.error)], true;
    }
    return [MeasurementResult(outputs.value)], false;
  }

  /** The evaluation phase of Execute (lines 264-354); the goroutines' results are sent in query
      order. */
  method RunEvaluationPhase(p: Pipeline, o: Oracle, sorted: seq<PipelineQuery>)
    returns (emitted: seq<PipelineResult>, stop: bool)
    ensures (emitted, stop) == EvaluationPhase(p, o, sorted)
  {
    emitted := [];
    if !(|p.evaluations| > 0 && (|p.outputTrec.path| > 0 || |p.evaluationFormatters.evaluationFormatters| > 0)) {
      return emitted, false;
    }
    for i := 0 to |sorted|
      invariant emitted == WorkersEmitted(p, o, sorted[..i])
    {
      assert sorted[..i + 1][..i] == sorted[..i];
      emitted := emitted + WorkerEmitted(p, o, sorted[i]);
    }
    assert sorted[..|sorted|] == sorted;

    var fs := p.evaluationFormatters.evaluationFormatters;
    ghost var outcomes := Each(fs, o.evaluationFormat);
    var evaluations: seq<string> := [];
    for i := 0 to |fs|
      invariant Collect(outcomes[..i]) == Success(evaluations)
    {
      assert outcomes[..i + 1][..i] == outcomes[..i];
      var r := o.evaluationFormat(fs[i]);
      if r.Failure? {
        CollectPrefixFailure(outcomes, i + 1);
        return emitted + [ErrorResult("", r.error)], true;
      }
      evaluations := evaluations + [r.value];
    }
    assert outcomes[..|fs|] == outcomes;
    emitted := emitted + [EvaluationResult(evaluations)];
    stop := false;
  }

  /** The model phase of Execute (lines 357-392). */
  method RunModelPhase(p: Pipeline, o: Oracle) returns (emitted: seq<PipelineResult>, stop: bool)
    ensures (emitted, stop) == ModelPhase(p, o)
  {
    emitted, stop := [], false;
    if p.model.Some? {
      if p.modelConfiguration.generate {
        var err := o.generate;
        if err.Some? {
          return [ErrorResult("", err.value)], true;
        }
      }
      if p.modelConfiguration.train {
        var err := o.train;
        if err.Some? {
          return [ErrorResult("", err.value)], true;
        }
      }
      if p.modelConfiguration.test {
        var err := o.test;
        if err.Some? {
          return [ErrorResult("", err.value)], true;
        }
      }
    }
  }

  /** Preprocesses every loaded query in place (lines 178-201), or reports the fatal exit. */
  method PreprocessAll(p: Pipeline, o: Oracle, queries: seq<PipelineQuery>) returns (measurementQueries: array<PipelineQuery>, fatal: bool)
    ensures fatal <==> Fatal(p, queries)
    ensures fresh(measurementQueries) && measurementQueries.Length == |queries|
    ensures !fatal ==> forall i :: 0 <= i < |queries| ==> measurementQueries[i] == Processed(p, o, queries[i])
  {
    measurementQueries := new PipelineQuery[|queries|](i requires 0 <= i < |queries| => queries[i]);
    for i := 0 to |queries|
      invariant i > 0 ==> !Fatal(p, queries)
      invariant forall k :: 0 <= k < i ==> measurementQueries[k] == Processed(p, o, queries[k])
    {
      var q := queries[i];
      q := RunStages(q, p.preprocess, o.process);
      q := RunStages(q, p.transformations.booleanTransformations, o.booleanTransform);
      q, fatal := RunElasticStages(q, p.transformations.elasticsearchTransformations, p.statisticsSource, o.elasticTransform);
      if fatal {
        return;
      }
      measurementQueries[i] := q;
    }
    fatal := false;
  }

  /** Execute: load, preprocess every query, sort by complexity, then the measurement,
      evaluation and model phases, and Done. `processed` are the preprocessed queries in load
      order and `sorted` the same queries after the (unstable) sort. The column labels are
      taken from the sorted queries. */
  method Execute(p: Pipeline, o: Oracle)
    returns (emitted: seq<PipelineResult>, exited: bool, processed: seq<PipelineQuery>, sorted: seq<PipelineQuery>)
    ensures |p.queryPath| > 0 && o.load.Success? && !Fatal(p, o.load.value) ==>
              && |processed| == |o.load.value|
              && (forall i :: 0 <= i < |processed| ==> processed[i] == Processed(p, o, o.load.value[i]))
              && SortedBy(sorted, ClauseKey(o)) && multiset(sorted) == multiset(processed)
    ensures (emitted, exited) == Trace(p, o, sorted)
  {
    processed, sorted := [], [];
    var q: seq<PipelineResult> := [];
    if |p.queryPath| > 0 {
      var loaded := o.load;
      if loaded.Failure? {
        return [ErrorResult("", loaded.error)], false, processed, sorted;
      }
      var measurementQueries, fatal := PreprocessAll(p, o, loaded.value);
      if fatal {
        return [], true, processed, sorted;
      }
      processed := measurementQueries[..];
      SortBy(measurementQueries, ClauseKey(o));
      sorted := measurementQueries[..];
      var topics := Topics(measurementQueries[..]);

      var m, mStop := RunMeasurementPhase(p, o, topics, measurementQueries[..]);
      if mStop {
        return m, false, processed, sorted;
      }
      var e, eStop := RunEvaluationPhase(p, o, measurementQueries[..]);
      if eStop {
        return m + e, false, processed, sorted;
      }
      q := m + e;
      assert (q, false) == QueryPhases(p, o, sorted);
    }
    var md, mdStop := RunModelPhase(p, o);
    if mdStop {
      assert q + md + [] == q + md;
      return q + md, false, processed, sorted;
    }
    return q + md + [DoneResult], false, processed, sorted;
  }

  /** A failed load sends exactly one Error and nothing else. */
  lemma LoadFailureSendsOneError(p: Pipeline, o: Oracle, sorted: seq<PipelineQuery>)
    requires |p.queryPath| > 0 && o.load.Failure?
    ensures Trace(p, o, sorted) == ([ErrorResult("", o.load.error)], false)
  {
  }

  /** The fatal exit sends nothing at all: not even Done. */
  lemma FatalSendsNothing(p: Pipeline, o: Oracle, sorted: seq<PipelineQuery>)
    requires |p.queryPath| > 0 && o.load.Success? && Fatal(p, o.load.value)
    ensures Trace(p, o, sorted) == ([], true)
  {
  }

  lemma {:induction false} WorkersNeverDone(p: Pipeline, o: Oracle, qs: seq<PipelineQuery>)
    ensures DoneResult !in WorkersEmitted(p, o, qs)
    decreases |qs|
  {
    if qs != [] {
      WorkersNeverDone(p, o, qs[..|qs| - 1]);
    }
  }

  /** No phase sends Done. */
  lemma PhasesNeverDone(p: Pipeline, o: Oracle, sorted: seq<PipelineQuery>)
    ensures DoneResult !in QueryPhases(p, o, sorted).0 && DoneResult !in ModelPhase(p, o).0
  {
    WorkersNeverDone(p, o, sorted);
  }

  /** Done is sent at most once, and only as the last result; it is sent exactly when no phase
      stops the run and the process does not exit. */
  lemma DoneOnlyLast(p: Pipeline, o: Oracle, sorted: seq<PipelineQuery>)
    ensures var t := Trace(p, o, sorted).0;
            forall i :: 0 <= i < |t| && t[i] == DoneResult ==> i == |t| - 1
    ensures DoneResult in Trace(p, o, sorted).0 <==>
      && !(|p.queryPath| > 0 && o.load.Failure?)
      && !(|p.queryPath| > 0 && Fatal(p, o.load.value))
      && !(|p.queryPath| > 0 && QueryPhases(p, o, sorted).1)
      && !ModelPhase(p, o).1
  {
    PhasesNeverDone(p, o, sorted);
    var t := Trace(p, o, sorted).0;
    if !(|p.queryPath| > 0 && o.load.Failure?) && !(|p.queryPath| > 0 && Fatal(p, o.load.value)) {
      var q := if |p.queryPath| > 0 then QueryPhases(p, o, sorted).0 else [];
      if !(|p.queryPath| > 0 && QueryPhases(p, o, sorted).1) {
        var prefix := q + ModelPhase(p, o).0;
        assert DoneResult !in prefix;
        assert t == prefix || t == prefix + [DoneResult];
      }
    }
  }

  /** A measurement error ends the run with exactly one Error: the error of the first failing
      (measurement, query) pair, in measurement-major order. */
  lemma MeasurementErrorEndsRun(p: Pipeline, o: Oracle, sorted: seq<PipelineQuery>)
    requires |p.queryPath| > 0 && o.load.Success? && !Fatal(p, o.load.value)
    requires |p.measurementFormatters| > 0 && MeasureAll(p.measurements, sorted, o.measure).Failure?
    ensures Trace(p, o, sorted) == ([ErrorResult("", MeasureAll(p.measurements, sorted, o.measure).error)], false)
    ensures exists i, qi :: 0 <= i < |p.measurements| && 0 <= qi < |sorted|
              && o.measure(p.measurements[i], sorted[qi]) == Failure(MeasureAll(p.measurements, sorted, o.measure).error)
  {
    MeasureAllFailure(p.measurements, sorted, o.measure);
  }

  /** Without measurement formatters no measurement is executed: the run does not depend on
      the measurements, their names or the formatters at all. */
  lemma NoFormattersNoMeasurements(p: Pipeline, o: Oracle, o2: Oracle, sorted: seq<PipelineQuery>)
    requires |p.measurementFormatters| == 0
    requires o2 == o.(measure := o2.measure, format := o2.format, measurementName := o2.measurementName)
    ensures MeasurementPhase(p, o, Topics(sorted), sorted) == ([], false)
    ensures Trace(p, o, sorted) == Trace(p, o2, sorted)
  {
    assert EvaluationPhase(p, o, sorted) == EvaluationPhase(p, o2, sorted) by {
      WorkersSameOracle(p, o, o2, sorted);
    }
  }

  lemma {:induction false} WorkersSameOracle(p: Pipeline, o: Oracle, o2: Oracle, qs: seq<PipelineQuery>)
    requires o2.worker == o.worker
    ensures WorkersEmitted(p, o, qs) == WorkersEmitted(p, o2, qs)
    decreases |qs|
  {
    if qs != [] {
      WorkersSameOracle(p, o, o2, qs[..|qs| - 1]);
    }
  }

  /** Every column of the measurement data is labelled with the name of the query measured in
      it; the length check at line 242 can therefore never fire. */
  lemma ColumnsLabelledByTheirQuery(p: Pipeline, o: Oracle, sorted: seq<PipelineQuery>)
    requires MeasureAll(p.measurements, sorted, o.measure).Success? && |p.measurements| > 0
    ensures |Topics(sorted)| == |MeasureAll(p.measurements, sorted, o.measure).value[0]|
    ensures forall qi :: 0 <= qi < |sorted| ==>
              Topics(sorted)[qi] == sorted[qi].name && o.measure(p.measurements[0], sorted[qi]) == Success(MeasureAll(p.measurements, sorted, o.measure).value[0][qi])
  {
    MeasureAllSuccess(p.measurements, sorted, o.measure);
  }

  /** A Generate error makes the Train and Test outcomes irrelevant, and a Train error the Test
      outcome: the steps run in order and stop at the first error. */
  lemma ModelStepsInOrder(p: Pipeline, o: Oracle, train: Option<Error>, test: Option<Error>)
    requires p.model.Some?
    ensures p.modelConfiguration.generate && o.generate.Some? ==>
              ModelPhase(p, o) == ModelPhase(p, o.(train := train, test := test)) == ([ErrorResult("", o.generate.value)], true)
    ensures !(p.modelConfiguration.generate && o.generate.Some?) && p.modelConfiguration.train && o.train.Some? ==>
              ModelPhase(p, o) == ModelPhase(p, o.(test := test)) == ([ErrorResult("", o.train.value)], true)
    ensures ((!p.modelConfiguration.generate || o.generate.None?) && (!p.modelConfiguration.train || o.train.None?)
             && (!p.modelConfiguration.test || o.test.None?)) ==> ModelPhase(p, o) == ([], false)
  {
  }

  /** The evaluation phase sends something exactly when its gate holds. */
  lemma EvaluationOnlyWhenGated(p: Pipeline, o: Oracle, sorted: seq<PipelineQuery>)
    ensures EvaluationPhase(p, o, sorted).0 != [] <==> EvaluationGate(p)
  {
  }

  /** With measurement formatters, no evaluation and no model, a run whose measurements and
      formatters succeed sends exactly one Measurement result and then Done. */
  lemma MeasurementRunShape(p: Pipeline, o: Oracle, sorted: seq<PipelineQuery>)
    requires |p.queryPath| > 0 && o.load.Success? && !Fatal(p, o.load.value)
    requires !EvaluationGate(p) && p.model.None?
    requires !MeasurementPhase(p, o, Topics(sorted), sorted).1 && |p.measurementFormatters| > 0
    ensures |Trace(p, o, sorted).0| == 2 && Trace(p, o, sorted).0[0].MeasurementResult?
    ensures Trace(p, o, sorted).0[1] == DoneResult && !Trace(p, o, sorted).1
  {
  }
}
