/** The resource forecast report screen: the option lists of its select filters,
    its month columns, and the status/data transitions of a report fetch. */
module ResourceForecast {
  import opened JsValues
  import opened Sequences
  import opened Distinct
  import opened FilterOptions
  import opened Fetch

  /** One month of a forecast row: its label (the column header), the phase shown and the cell colour. */
  datatype MonthCell = MonthCell(monthLabel: JsValue, phase: JsValue, color: JsValue)

  /** One row of the report: its flat fields (project_name, ea_type, type, ...) and its months. */
  datatype ForecastRow = ForecastRow(fields: Record, months: seq<MonthCell>)

  /** p => p[field] */
  function FieldGetter(field: string): ForecastRow -> JsValue
  {
    (p: ForecastRow) => Get(p.fields, field)
  }

  /** p => !!p[field] */
  function HasTruthyField(field: string): ForecastRow -> bool
  {
    (p: ForecastRow) => Truthy(Get(p.fields, field))
  }

  /** rfData.map(p => p[field]) */
  function FieldValues(rows: seq<ForecastRow>, field: string): seq<JsValue>
  {
    Map(FieldGetter(field), rows)
  }

  /** filterFn(field): rfData.filter(p => p[field]).map(p => p[field]) followed by the
      first-occurrence filter. */
  function FilterFn(rows: seq<ForecastRow>, field: string): seq<JsValue>
  {
    KeepFirst(Map(FieldGetter(field), Filter(HasTruthyField(field), rows)))
  }

  /** The options of a select column hold each truthy value of the field exactly once
      and nothing else (no null, "", 0, false or undefined), in the order the values
      first occur in the rows. */
  lemma FilterFnSpec(rows: seq<ForecastRow>, field: string)
    ensures FilterFn(rows, field) == DistinctTruthy(FieldValues(rows, field))
    ensures NoDuplicates(FilterFn(rows, field))
    ensures forall x :: x in FilterFn(rows, field) <==> Truthy(x) && x in FieldValues(rows, field)
    ensures InFirstOccurrenceOrder(FilterFn(rows, field), FieldValues(rows, field))
    ensures IsSubsequence(FilterFn(rows, field), FieldValues(rows, field))
  {
    MapFilter(FieldGetter(field), Truthy, HasTruthyField(field), rows);
    DistinctTruthySpec(FieldValues(rows, field));
  }

  /** `${p.type}( ${p.sub_type} )` */
  function TypeLabel(p: ForecastRow): string
  {
    ToDisplayString(Get(p.fields, "type")) + "( " + ToDisplayString(Get(p.fields, "sub_type")) + " )"
  }

  /** typeFilter: the first-occurrence filter over every row's composite label. */
  function TypeFilter(rows: seq<ForecastRow>): seq<string>
  {
    KeepFirst(Map(TypeLabel, rows))
  }

  /** There is no truthiness test on the composite column: every row contributes
      its label, each label is listed once, in first-occurrence order. */
  lemma TypeFilterSpec(rows: seq<ForecastRow>)
    ensures NoDuplicates(TypeFilter(rows))
    ensures forall i :: 0 <= i < |rows| ==> TypeLabel(rows[i]) in TypeFilter(rows)
    ensures forall x :: x in TypeFilter(rows) <==> x in Map(TypeLabel, rows)
    ensures InFirstOccurrenceOrder(TypeFilter(rows), Map(TypeLabel, rows))
    ensures |TypeFilter(rows)| == 0 <==> |rows| == 0
  {
    var labels := Map(TypeLabel, rows);
    KeepFirstMembers(labels);
    KeepFirstNoDuplicates(labels);
    KeepFirstOrder(labels);
    if |rows| > 0 {
      assert labels[0] in TypeFilter(rows);
    }
  }

  /** A single road/highway row gives the single option "Road( Highway )". */
  lemma TypeFilterExample()
    ensures TypeFilter([ForecastRow(map["type" := Str("Road"), "sub_type" := Str("Highway")], [])])
            == ["Road( Highway )"]
  {
    var row := ForecastRow(map["type" := Str("Road"), "sub_type" := Str("Highway")], []);
    assert Get(row.fields, "type") == Str("Road");
    assert Get(row.fields, "sub_type") == Str("Highway");
    assert TypeLabel(row) == "Road( Highway )";
    var labels := Map(TypeLabel, [row]);
    assert labels == ["Road( Highway )"];
    assert FindIndex(labels, labels[0]) == 0;
    assert KeepFirstUpTo(labels, 1) == labels;
  }

  /** Names A, B, A give the options A, B. */
  lemma FilterFnExample()
    ensures FilterFn([ForecastRow(map["name" := Str("A")], []),
                      ForecastRow(map["name" := Str("B")], []),
                      ForecastRow(map["name" := Str("A")], [])], "name")
            == [Str("A"), Str("B")]
  {
    var a, b := Str("A"), Str("B");
    var rows := [ForecastRow(map["name" := a], []),
                 ForecastRow(map["name" := b], []),
                 ForecastRow(map["name" := a], [])];
    FilterFnSpec(rows, "name");
    var vals := FieldValues(rows, "name");
    assert vals == [a, b, a] by {
      assert Get(rows[0].fields, "name") == a;
      assert Get(rows[1].fields, "name") == b;
      assert Get(rows[2].fields, "name") == a;
    }
    ABAOptions(a, b);
  }

  /** The options drawn from the truthy values a, b, a are a, b. */
  lemma ABAOptions(a: JsValue, b: JsValue)
    requires Truthy(a) && Truthy(b) && a != b
    ensures DistinctTruthy([a, b, a]) == [a, b]
  {
    TruthyABA(a, b);
    KeepFirstABA(a, b);
  }

  lemma TruthyABA(a: JsValue, b: JsValue)
    requires Truthy(a) && Truthy(b)
    ensures TruthyOnly([a, b, a]) == [a, b, a]
  {
    var vals := [a, b, a];
    assert vals[1..] == [b, a] && vals[1..][1..] == [a];
    assert Filter(Truthy, [a]) == [a];
    assert Filter(Truthy, [b, a]) == [b, a];
  }

  lemma KeepFirstABA<T>(a: T, b: T)
    requires a != b
    ensures KeepFirst([a, b, a]) == [a, b]
  {
    var vals := [a, b, a];
    assert FindIndex(vals, a) == 0;
    assert FindIndex(vals, b) == 1;
    assert forall x :: x in [a, b] <==> x in vals;
    KeepFirstCharacterized(vals, [a, b]);
  }

  /** A month column: its header and the position of the month it reads. */
  datatype MonthColumn = MonthColumn(header: JsValue, index: nat)

  /** setMonthColumns: no columns without data, otherwise one per month of the first row. */
  function MonthColumns(rows: seq<ForecastRow>): (cols: seq<MonthColumn>)
    ensures |cols| == if rows == [] then 0 else |rows[0].months|
    ensures forall i :: 0 <= i < |cols| ==> cols[i].index == i && cols[i].header == rows[0].months[i].monthLabel
  {
    if |rows| > 0 then
      seq(|rows[0].months|, i requires 0 <= i < |rows[0].months| => MonthColumn(rows[0].months[i].monthLabel, i))
    else []
  }

  /** accessorFn: `${row.months[index].phase}`; None where the row has no such month
      (reading .phase of undefined throws). */
  function CellText(col: MonthColumn, row: ForecastRow): (text: Option<string>)
    ensures text.None? <==> |row.months| <= col.index
  {
    if col.index < |row.months| then Some(ToDisplayString(row.months[col.index].phase)) else None
  }

  /** On any row that has an i-th month, column i shows that row's i-th phase. */
  lemma MonthColumnReadsPhase(rows: seq<ForecastRow>, i: nat, row: ForecastRow)
    requires rows != [] && i < |rows[0].months|
    requires i < |row.months|
    ensures i < |MonthColumns(rows)|
    ensures CellText(MonthColumns(rows)[i], row) == Some(ToDisplayString(row.months[i].phase))
  {
  }

  /** A 200 reply whose body is null or undefined: reading its 'data' property throws
      inside the try, after LOADED was set, and the catch sets ERROR. */
  predicate BodyMissing(reply: Reply<Option<seq<ForecastRow>>>)
  {
    reply.Response? && reply.status == 200 && reply.data.None?
  }

  /** The status and data a fetch ends with, given the data before it and the reply
      (a response's body is None when it is null or undefined). */
  function FetchOutcome(prior: seq<ForecastRow>, reply: Reply<Option<seq<ForecastRow>>>): (r: (ResultStatus, seq<ForecastRow>))
    ensures r.0 != Loading
    ensures r.0 == Error <==> reply.Thrown? || BodyMissing(reply)
    ensures r.0 == NoRecord <==> reply.Response? && reply.status == 204
    ensures r.0 == Loaded <==> reply.Response? && reply.status != 204 && !BodyMissing(reply)
    ensures reply.Response? && reply.status == 200 && reply.data.Some? ==> r.1 == reply.data.value
    ensures !(reply.Response? && reply.status == 200 && reply.data.Some?) ==> r.1 == prior
  {
    match reply
    case Thrown => (Error, prior)
    case Response(status, body) =>
      if status == 200 then
        (if body.Some? then (Loaded, body.value) else (Error, prior))
      else (if status == 204 then NoRecord else Loaded, prior)
  }

  class ResourceForecastScreen {
    var resultStatus: Option<ResultStatus>
    var rfData: seq<ForecastRow>
    /** Every status the screen has been set to, oldest first. */
    ghost var statusLog: seq<ResultStatus>

    constructor ()
      ensures resultStatus == None && rfData == [] && statusLog == []
    {
      resultStatus := None;
      rfData := [];
      statusLog := [];
    }

    /** fetchReportData: LOADING first; then LOADED on any reply, with the data replaced
        on 200 and NO_RECORD after it on 204; ERROR if the call throws, or after LOADED
        when a 200 reply has no body to read the rows from. */
    method FetchReportData(reply: Reply<Option<seq<ForecastRow>>>)
      modifies this`resultStatus, this`rfData, this`statusLog
      ensures resultStatus.Some? && (resultStatus.value, rfData) == FetchOutcome(old(rfData), reply)
      ensures statusLog == old(statusLog) + match reply
        case Thrown => [Loading, Error]
        case Response(status, body) =>
          if status == 204 then [Loading, Loaded, NoRecord]
          else if status == 200 && body.None? then [Loading, Loaded, Error]
          else [Loading, Loaded]
    {
      resultStatus, statusLog := Some(Loading), statusLog + [Loading];
      match reply {
        case Thrown =>
          resultStatus, statusLog := Some(Error), statusLog + [Error];
        case Response(status, body) =>
          resultStatus, statusLog := Some(Loaded), statusLog + [Loaded];
          if status == 200 {
            if body.None? {
              resultStatus, statusLog := Some(Error), statusLog + [Error];
              return;
            }
            rfData := body.value;
          }
          if status == 204 {
            resultStatus, statusLog := Some(NoRecord), statusLog + [NoRecord];
          }
      }
    }
  }
}
