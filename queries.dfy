/** The query values the core passes around, and the statistics source it hands on. The tree
    types belong to the cqr library, the statistics source to the stats package and
    PipelineQuery to the root groove package; none of those files is part of this model, so
    only the parts the core reads are kept. */
module Queries {

  /** A value of a query's `Options map[string]interface{}`: the core only ever asks whether
      it is the boolean `true`, so anything that is not a bool is `OtherOption`. */
  datatype OptionValue = BoolOption(b: bool) | OtherOption

  /** cqr.Keyword: a query string searched in some fields, with options such as "exploded". */
  datatype Keyword = Keyword(queryString: string, fields: seq<string>, options: map<string, OptionValue>)

  /** cqr.BooleanQuery: an operator ("or", "and", "not", "adj3", ...) over child queries. */
  datatype BooleanQuery = BooleanQuery(operator: string, children: seq<Query>, options: map<string, OptionValue>)

  /** cqr.CommonQueryRepresentation. */
  datatype Query = KeywordQuery(keyword: Keyword) | BooleanNode(boolean: BooleanQuery)

  /** A statistics source (stats.StatisticsSource, a package that is not part of this model):
      the core only passes it on, and asks whether it is the Elasticsearch one. */
  datatype StatisticsSource = StatisticsSource(id: nat, isElasticsearch: bool)

  /** groove.PipelineQuery: a query with the name and topic that identify it in a run. */
  datatype PipelineQuery = PipelineQuery(name: string, topic: string, query: Query)
}
