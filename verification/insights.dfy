/** The API's choice of insight generator for a resource and a grouping. */
module Insights {

  /** The generator classes the table names. */
  datatype Generator = WorkTeamInsightGenerator | WorkLeadInsightGenerator | WorkStaffInsightGenerator

  /** The outcome of the two subscripts: a generator, or the KeyError raised by the
      first subscript whose key is missing, carrying that key. */
  datatype Lookup = Found(generator: Generator) | KeyError(key: string)

  /** insight_generator_classes */
  const InsightGeneratorClasses: map<string, map<string, Generator>> :=
    map["works" := map["team" := WorkTeamInsightGenerator,
                        "lead" := WorkLeadInsightGenerator,
                        "staff" := WorkStaffInsightGenerator]]

  /** insight_generator_classes[resource][group_by] */
  function GetInsightGenerator(resource: string, groupBy: string): (r: Lookup)
    ensures resource != "works" ==> r == KeyError(resource)
    ensures resource == "works" && groupBy != "team" && groupBy != "lead" && groupBy != "staff" ==> r == KeyError(groupBy)
    ensures r.Found? <==> resource == "works" && (groupBy == "team" || groupBy == "lead" || groupBy == "staff")
  {
    if resource !in InsightGeneratorClasses then KeyError(resource)
    else if groupBy !in InsightGeneratorClasses[resource] then KeyError(groupBy)
    else Found(InsightGeneratorClasses[resource][groupBy])
  }

  /** The grouping key each generator is registered under. */
  function GroupByOf(g: Generator): string
  {
    match g
    case WorkTeamInsightGenerator => "team"
    case WorkLeadInsightGenerator => "lead"
    case WorkStaffInsightGenerator => "staff"
  }

  /** The table is one-to-one between the three groupings of "works" and the three
      generators: every generator is reached by its own key and by no other. */
  lemma GeneratorTableBijective(groupBy: string, g: Generator)
    ensures GetInsightGenerator("works", GroupByOf(g)) == Found(g)
    ensures GetInsightGenerator("works", groupBy) == Found(g) ==> groupBy == GroupByOf(g)
  {
  }

  /** The three registered pairs. */
  lemma KnownGenerators()
    ensures GetInsightGenerator("works", "team") == Found(WorkTeamInsightGenerator)
    ensures GetInsightGenerator("works", "lead") == Found(WorkLeadInsightGenerator)
    ensures GetInsightGenerator("works", "staff") == Found(WorkStaffInsightGenerator)
  {
    GeneratorTableBijective("team", WorkTeamInsightGenerator);
    GeneratorTableBijective("lead", WorkLeadInsightGenerator);
    GeneratorTableBijective("staff", WorkStaffInsightGenerator);
  }
}
