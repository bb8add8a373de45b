/** The works insight table: the option lists of its three multi-select columns,
    derived by a loop over the code types, the multi-select row filter those columns
    use, and the page size that follows the number of works. */
module WorkListing {
  import opened JsValues
  import opened Sequences
  import opened Distinct
  import opened FilterOptions

  /** A work, seen through its nested code objects (work_type, project,
      current_work_phase, ...): a key that is absent stands for a null or
      undefined object. Objects are always truthy. */
  datatype Work = Work(codes: map<string, Record>)

  /** w => (w[key] ? w[key][accessor] : null) */
  function CodeGetter(key: string, accessor: string): Work -> JsValue
  {
    (w: Work) => if key in w.codes then Get(w.codes[key], accessor) else Null
  }

  /** The mapped column of the sorted works, before de-duplication. */
  function CodeValues(works: seq<Work>, key: string, accessor: string): seq<JsValue>
  {
    Map(CodeGetter(key, accessor), works)
  }

  /** .map(...).filter((ele, index, arr) => arr.findIndex(t => t === ele) === index && ele) */
  function CodeList(works: seq<Work>, key: string, accessor: string): seq<JsValue>
  {
    KeepFirstTruthy(CodeValues(works, key, accessor))
  }

  /** A code list holds each truthy code of the (sorted) works once and nothing else,
      in the order the codes first occur in the works it was built from. */
  lemma CodeListSpec(works: seq<Work>, key: string, accessor: string)
    ensures NoDuplicates(CodeList(works, key, accessor))
    ensures forall x :: x in CodeList(works, key, accessor) <==>
      Truthy(x) && exists i :: 0 <= i < |works| && CodeGetter(key, accessor)(works[i]) == x
    ensures InFirstOccurrenceOrder(CodeList(works, key, accessor), CodeValues(works, key, accessor))
    ensures IsSubsequence(CodeList(works, key, accessor), CodeValues(works, key, accessor))
  {
    var vals := CodeValues(works, key, accessor);
    KeepFirstTruthyIsDistinctTruthy(vals);
    DistinctTruthySpec(vals);
    forall x | x in vals
      ensures exists i :: 0 <= i < |works| && CodeGetter(key, accessor)(works[i]) == x
    {
      var i :| 0 <= i < |vals| && vals[i] == x;
      assert CodeGetter(key, accessor)(works[i]) == x;
    }
    forall i | 0 <= i < |works|
      ensures CodeGetter(key, accessor)(works[i]) in vals
    {
      assert vals[i] == CodeGetter(key, accessor)(works[i]);
    }
  }

  /** Sorting only reorders: whatever order the sort puts the works in, the code
      list offers the same codes. */
  lemma CodeListSortInvariant(sorted: seq<Work>, works: seq<Work>, key: string, accessor: string)
    requires multiset(sorted) == multiset(works)
    ensures forall x :: x in CodeList(sorted, key, accessor) <==> x in CodeList(works, key, accessor)
  {
    var vs, vw := CodeValues(sorted, key, accessor), CodeValues(works, key, accessor);
    KeepFirstTruthyIsDistinctTruthy(vs);
    DistinctTruthySpec(vs);
    KeepFirstTruthyIsDistinctTruthy(vw);
    DistinctTruthySpec(vw);
    forall x | x in vs
      ensures x in vw
    {
      var i :| 0 <= i < |vs| && vs[i] == x;
      assert sorted[i] in multiset(works);
      var j :| 0 <= j < |works| && works[j] == sorted[i];
      assert vw[j] == x;
    }
    forall x | x in vw
      ensures x in vs
    {
      var i :| 0 <= i < |vw| && vw[i] == x;
      assert works[i] in multiset(sorted);
      var j :| 0 <= j < |sorted| && sorted[j] == works[i];
      assert vs[j] == x;
    }
  }

  /** Object.keys(codeTypes), in insertion order. */
  const CodeKeys: seq<string> := ["work_type", "project", "current_work_phase"]

  /** The property read from a code object: "abbreviation" for a ministry, "name" otherwise. */
  function Accessor(key: string): (accessor: string)
    ensures accessor == "abbreviation" <==> key == "ministry"
    ensures accessor == "name" <==> key != "ministry"
  {
    if key == "ministry" then "abbreviation" else "name"
  }

  /** The sort key: key + ".name" for a project, key + ".sort_order" otherwise. */
  function SortKey(key: string): (sortKey: string)
    ensures key == "project" ==> sortKey == "project.name"
    ensures key != "project" ==> sortKey == key + ".sort_order"
  {
    key + "." + if key == "project" then "name" else "sort_order"
  }

  /** "ministry" is not a code type, so every code list reads the "name" property;
      the project list is sorted by name and the other two by sort order. */
  lemma CodeKeysReadNames()
    ensures forall k :: k in CodeKeys ==> Accessor(k) == "name"
    ensures SortKey(CodeKeys[0]) == "work_type.sort_order"
    ensures SortKey(CodeKeys[1]) == "project.name"
    ensures SortKey(CodeKeys[2]) == "current_work_phase.sort_order"
  {
    assert "ministry"[0] == 'm';
    assert CodeKeys[0][0] == 'w' && CodeKeys[1][0] == 'p' && CodeKeys[2][0] == 'c';
    assert forall k :: k in CodeKeys ==> k == CodeKeys[0] || k == CodeKeys[1] || k == CodeKeys[2];
  }

  /** A multi-select column's filterFn: an empty selection, or one longer than the
      option list (the select-all entry), passes every row; otherwise a row passes
      iff its value, with a falsy value read as "", is selected. */
  function MultiSelectFilter(value: JsValue, filterValue: seq<JsValue>, options: seq<JsValue>): (pass: bool)
    ensures |filterValue| == 0 || |filterValue| > |options| ==> pass
    ensures 0 < |filterValue| <= |options| ==> (pass <==> OrEmpty(value) in filterValue)
  {
    if |filterValue| == 0 || |filterValue| > |options| then true
    else OrEmpty(value) in filterValue
  }

  /** With a selection drawn from a list of truthy options, a row passes when its
      value is selected and a row with a blank value never passes unless the whole
      selection is the select-all case. */
  lemma SelectionOfOptions(value: JsValue, filterValue: seq<JsValue>, options: seq<JsValue>)
    requires forall x :: x in options ==> Truthy(x)
    requires forall x :: x in filterValue ==> x in options
    requires 0 < |filterValue| <= |options|
    ensures Truthy(value) ==> (MultiSelectFilter(value, filterValue, options) <==> value in filterValue)
    ensures !Truthy(value) ==> !MultiSelectFilter(value, filterValue, options)
  {
    if !Truthy(value) {
      assert !Truthy(Str(""));
      assert Str("") !in options;
    }
  }

  /** Ticking every option of a code list one by one is not the select-all case:
      the selection is exactly as long as the option list, so rows whose value is
      blank are hidden, and every other row passes. */
  lemma SelectingEveryOption(value: JsValue, works: seq<Work>, key: string, accessor: string)
    requires CodeList(works, key, accessor) != []
    ensures !Truthy(value) ==> !MultiSelectFilter(value, CodeList(works, key, accessor), CodeList(works, key, accessor))
    ensures Truthy(value) ==>
      (MultiSelectFilter(value, CodeList(works, key, accessor), CodeList(works, key, accessor)) <==>
       exists i :: 0 <= i < |works| && CodeGetter(key, accessor)(works[i]) == value)
  {
    CodeListSpec(works, key, accessor);
    var options := CodeList(works, key, accessor);
    SelectionOfOptions(value, options, options);
  }

  /** The table's pagination state. */
  datatype Pagination = Pagination(pageIndex: int, pageSize: int)

  class WorkListingScreen {
    var works: seq<Work>
    var workTypes: seq<JsValue>
    var projects: seq<JsValue>
    var phases: seq<JsValue>
    var pagination: Pagination

    /** The initial state: no works, empty option lists, first page of ten. */
    constructor ()
      ensures works == [] && workTypes == [] && projects == [] && phases == []
      ensures pagination == Pagination(0, 10)
    {
      works, workTypes, projects, phases := [], [], [], [];
      pagination := Pagination(0, 10);
    }

    /** The effect on [works]: for each code type, sort a copy of the works by the
        type's sort key, read the accessor of each work's code object, keep the first
        truthy occurrence of each code, and hand the list to that type's setter.
        The external sort is the parameter sort. */
    method DeriveCodeLists(sort: (seq<Work>, string) -> seq<Work>)
      modifies this`workTypes, this`projects, this`phases
      ensures workTypes == CodeList(sort(works, "work_type.sort_order"), "work_type", "name")
      ensures projects == CodeList(sort(works, "project.name"), "project", "name")
      ensures phases == CodeList(sort(works, "current_work_phase.sort_order"), "current_work_phase", "name")
    {
      CodeKeysReadNames();
      var i := 0;
      while i < |CodeKeys|
        invariant 0 <= i <= |CodeKeys|
        invariant i > 0 ==> workTypes == CodeList(sort(works, "work_type.sort_order"), "work_type", "name")
        invariant i > 1 ==> projects == CodeList(sort(works, "project.name"), "project", "name")
        invariant i > 2 ==> phases == CodeList(sort(works, "current_work_phase.sort_order"), "current_work_phase", "name")
      {
        var key := CodeKeys[i];
        var accessor := "name";
        var sortKey := "sort_order";
        if key == "project" {
          sortKey := "name";
        }
        if key == "ministry" {
          accessor := "abbreviation";
        }
        sortKey := key + "." + sortKey;
        assert accessor == Accessor(key) && sortKey == SortKey(key);
        var codes := KeepFirstTruthy(Map(CodeGetter(key, accessor), sort(works, sortKey)));
        if key == "work_type" {
          workTypes := codes;
        } else if key == "project" {
          projects := codes;
        } else if key == "current_work_phase" {
          phases := codes;
        }
        i := i + 1;
      }
    }

    /** A new query result: works is data || [], the page size becomes the number of
        works with the page index kept, and the code lists are derived again. */
    method ReceiveWorks(data: Option<seq<Work>>, sort: (seq<Work>, string) -> seq<Work>)
      modifies this`works, this`pagination, this`workTypes, this`projects, this`phases
      ensures works == if data.Some? then data.value else []
      ensures pagination == Pagination(old(pagination).pageIndex, |works|)
      ensures workTypes == CodeList(sort(works, "work_type.sort_order"), "work_type", "name")
      ensures projects == CodeList(sort(works, "project.name"), "project", "name")
      ensures phases == CodeList(sort(works, "current_work_phase.sort_order"), "current_work_phase", "name")
    {
      works := if data.Some? then data.value else [];
      pagination := pagination.(pageSize := |works|);
      DeriveCodeLists(sort);
    }

    /** The table's onPaginationChange: the state takes the table's new pagination. */
    method OnPaginationChange(next: Pagination)
      modifies this`pagination
      ensures pagination == next
    {
      pagination := next;
    }
  }
}
