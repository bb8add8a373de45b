# EPIC.track screen logic in Dafny

EPIC.track is a tracking application for environmental assessment work. Its web
clients are React screens; almost all of their code is rendering. This project
models the pieces of logic inside those screens that can be stated precisely, and
the API's insight-generator dispatch table:

- **Filter options.** Every table screen builds the option list of a select column
  with `arr.filter((ele, index, arr) => arr.findIndex(t => t === ele) === index)`.
  `Distinct.KeepFirst` is that filter as written. `Distinct.Dedup` is an
  independent seen-list scan, proved to compute the same list. The variants are:
  - a truthiness pre-filter (resource forecast);
  - truthiness folded into the filter (work listing);
  - none at all (task templates, and the composite type column of the resource
    forecast).
- **Resource forecast report** (`ResourceForecast`). It covers the select-column
  options, the month columns, and the status and data after a report fetch.
- **Task templates** (`TemplateList`). It covers the three name option lists and
  the handlers that change the screen's state: fetch, delete, and the three
  dialogs.
- **Works insight table** (`WorkListing`). It covers:
  - the loop that derives the three code lists from the sorted works;
  - the multi-select row filter;
  - the page size, which follows the number of works.
- **Work-plan phases** (`PhaseContainer`, `CardBody`, `WorkPhases`). These cover:
  - the completed / current-and-future split;
  - the one-shot choice of the selected phase;
  - what the phase list shows;
  - a card's current phase, title, out-of-date flag and days-left colour.
- **Insight generators** (`Insights`). `get_insight_generator` is a two-level
  dictionary lookup.

Modelling choices:

- JavaScript values are the tagged type `JsValues.JsValue`: string, integer,
  boolean, null or undefined. It comes with JavaScript truthiness, `v || ""` and
  the string conversion of a template literal.
- Records are maps. Reading a missing key gives `undefined`.
- React state is modelled as a class per screen. Each handler is a method that
  changes exactly the fields its setters change.
- Service replies are the abstract `Fetch.Reply`: a response with a status and a
  body, or a thrown call. The body of a report reply is an `Option`: `None`
  stands for a null or undefined body.
- The ghost `statusLog` of a screen records every status it has been set to.

What `fetchReportData` does with replies other than a 200 carrying rows:

- A 204 reply leaves the previous report data in place; it does not empty it.
- A reply with any status other than 200 or 204 ends in `LOADED`, not `ERROR`.
- `ERROR` comes from a thrown call, and from a 200 reply whose body is null or
  undefined: reading its `data` property throws after `LOADED` was set, so the
  statuses go `LOADING`, `LOADED`, `ERROR` and the previous data is kept.

## Model

| member | source | states |
|---|---|---|
| Sequences.FindIndex | epicflow-web/src/components/reports/resourceForecast/resourceForecast.tsx:70 | `findIndex` gives the first position holding the value, or -1 exactly when the value is absent |
| Distinct.KeepFirst | epicflow-web/src/components/reports/resourceForecast/resourceForecast.tsx:70 | the filter as written: keep the element at index i iff `findIndex` of it is i; never longer than its input (its properties are the `KeepFirst...` lemmas below) |
| Distinct.KeepFirstMembers | epicflow-web/src/components/reports/resourceForecast/resourceForecast.tsx:70 | the first-occurrence filter keeps every value of its input and adds none |
| Distinct.KeepFirstNoDuplicates | epicflow-web/src/components/reports/resourceForecast/resourceForecast.tsx:70 | no value appears twice in the filter's result |
| Distinct.KeepFirstOrder | epicflow-web/src/components/reports/resourceForecast/resourceForecast.tsx:70 | the result lists values by increasing position of their first occurrence |
| Distinct.KeepFirstSubsequence | epicflow-web/src/components/reports/resourceForecast/resourceForecast.tsx:70 | the result is the input with elements deleted, never reordered |
| Distinct.KeepFirstCharacterized | epicflow-web/src/components/reports/resourceForecast/resourceForecast.tsx:70 | any list with exactly the input's values, in first-occurrence order, is the filter's result |
| Distinct.KeepFirstIsDedup | epicflow-web/src/components/reports/resourceForecast/resourceForecast.tsx:70 | the findIndex filter equals the left-to-right seen-list de-duplication |
| Distinct.KeepFirstFilter | epictrack-web/src/components/insights/Work/Tabs/General/charts/workListing.tsx:59-61 | dropping values by a property before or after de-duplicating gives the same list |
| FilterOptions.KeepFirstTruthy | epictrack-web/src/components/insights/Work/Tabs/General/charts/workListing.tsx:59-61 | the filter with `&& ele`: keep a first occurrence only when it is truthy (related to the truthy pre-filter by the next row) |
| FilterOptions.KeepFirstTruthyIsDistinctTruthy | epictrack-web/src/components/insights/Work/Tabs/General/charts/workListing.tsx:59-61 | `findIndex(...) === index && ele` gives the same options as filtering falsy values out first |
| FilterOptions.DistinctTruthySpec | epicflow-web/src/components/reports/resourceForecast/resourceForecast.tsx:67-70 | truthy options: each truthy value of the input once, no falsy value, first-occurrence order, a subsequence of the input |
| ResourceForecast.FilterFn | epicflow-web/src/components/reports/resourceForecast/resourceForecast.tsx:67-70 | `filterFn(field)`: keep the rows whose field is truthy, map them to the field, apply the first-occurrence filter (its properties are `FilterFnSpec`) |
| ResourceForecast.FilterFnSpec | epicflow-web/src/components/reports/resourceForecast/resourceForecast.tsx:67-70 | `filterFn(field)` holds exactly the truthy values of the field, without duplicates, in first-occurrence order, as a subsequence of the mapped rows |
| ResourceForecast.FilterFnExample | epicflow-web/src/components/reports/resourceForecast/resourceForecast.tsx:67-70 | names A, B, A give the options A, B |
| ResourceForecast.TypeLabel | epicflow-web/src/components/reports/resourceForecast/resourceForecast.tsx:77 | the template literal `${p.type}( ${p.sub_type} )`, with undefined and null printed as such |
| ResourceForecast.TypeFilter | epicflow-web/src/components/reports/resourceForecast/resourceForecast.tsx:77-78 | the first-occurrence filter over every row's label, with no truthiness test (its properties are `TypeFilterSpec`) |
| ResourceForecast.TypeFilterSpec | epicflow-web/src/components/reports/resourceForecast/resourceForecast.tsx:77-78 | every row's `type( sub_type )` label is an option (no truthiness test), each once, in first-occurrence order; no rows give no options |
| ResourceForecast.TypeFilterExample | epicflow-web/src/components/reports/resourceForecast/resourceForecast.tsx:77-78 | a Road/Highway row gives the single option "Road( Highway )" |
| ResourceForecast.MonthColumns | epicflow-web/src/components/reports/resourceForecast/resourceForecast.tsx:39-65 | no columns without data; otherwise one per month of the first row, headed by that month's label |
| ResourceForecast.CellText | epicflow-web/src/components/reports/resourceForecast/resourceForecast.tsx:45 | the cell of a month column: the row's phase at the column's index, or None exactly when the row has no month there (where the source throws) |
| ResourceForecast.MonthColumnReadsPhase | epicflow-web/src/components/reports/resourceForecast/resourceForecast.tsx:42-45 | column i shows the i-th month's phase of every row that has an i-th month |
| ResourceForecast.FetchOutcome | epicflow-web/src/components/reports/resourceForecast/resourceForecast.tsx:184-201 | the final status is never LOADING; ERROR iff the call threw or a 200 reply had no body; NO_RECORD iff 204; LOADED for every other reply; data replaced only on a 200 with a body |
| ResourceForecast.ResourceForecastScreen.constructor | epicflow-web/src/components/reports/resourceForecast/resourceForecast.tsx:14-15 | no status and no data at first |
| ResourceForecast.ResourceForecastScreen.FetchReportData | epicflow-web/src/components/reports/resourceForecast/resourceForecast.tsx:184-201 | the screen ends in the fetch outcome; statuses set in order LOADING, LOADED (then NO_RECORD on 204, or ERROR on a 200 without a body), or LOADING, ERROR when the call throws |
| TemplateList.NameOptions | epictrack-web/src/components/task/template/TemplateList.tsx:61-72 | a column's options: the templates mapped to that column's name, then the first-occurrence filter (its properties are `NameOptionsSpec`) |
| TemplateList.NameOptionsSpec | epictrack-web/src/components/task/template/TemplateList.tsx:60-73 | EA act, phase and work type options hold every template's name (null names too), each once, in first-occurrence order |
| TemplateList.DialogTitle | epictrack-web/src/components/task/template/TemplateList.tsx:201 | "Update" title iff the template id is truthy, "Create" title otherwise |
| TemplateList.IsBackdropClick | epictrack-web/src/components/task/template/TemplateList.tsx:34 | `reason && reason == "backdropClick"`: true only for that string |
| TemplateList.TemplateListScreen.constructor | epictrack-web/src/components/task/template/TemplateList.tsx:18-30 | empty lists, no ids, every dialog closed; the option lists match the templates |
| TemplateList.TemplateListScreen.TemplatesChanged | epictrack-web/src/components/task/template/TemplateList.tsx:60-73 | after the effect the three option lists are those of the current templates |
| TemplateList.TemplateListScreen.GetTemplates | epictrack-web/src/components/task/template/TemplateList.tsx:42-54 | LOADING then always LOADED; templates replaced only on 200; option lists kept in step |
| TemplateList.TemplateListScreen.SetStatus | epictrack-web/src/components/task/template/TemplateList.tsx:43-52 | `setResultStatus`: the status becomes the given one and is logged; nothing else changes |
| TemplateList.TemplateListScreen.OnDialogClose | epictrack-web/src/components/task/template/TemplateList.tsx:33-37 | a backdrop click changes nothing; any other close hides the create and details dialogs |
| TemplateList.TemplateListScreen.OnViewDetails | epictrack-web/src/components/task/template/TemplateList.tsx:38-41 | sets the template id and opens the details dialog, nothing else |
| TemplateList.TemplateListScreen.HandleDelete | epictrack-web/src/components/task/template/TemplateList.tsx:75-78 | sets the delete id and opens the delete dialog, nothing else |
| TemplateList.TemplateListScreen.DeleteTemplate | epictrack-web/src/components/task/template/TemplateList.tsx:80-87 | on 200 clears the delete id, closes the dialog and refetches; otherwise nothing changes |
| TemplateList.TemplateListScreen.OpenCreateDialog | epictrack-web/src/components/task/template/TemplateList.tsx:186-189 | opens the create dialog with no template, so its title is the "Create" one |
| TemplateList.TemplateListScreen.CancelDelete | epictrack-web/src/components/task/template/TemplateList.tsx:234 | toggles the delete dialog |
| WorkListing.CodeGetter | epictrack-web/src/components/insights/Work/Tabs/General/charts/workListing.tsx:58 | `w => w[key] ? w[key][accessor] : null`: a missing code object reads as null |
| WorkListing.CodeList | epictrack-web/src/components/insights/Work/Tabs/General/charts/workListing.tsx:58-61 | map the sorted works through the getter, then keep first truthy occurrences (its properties are `CodeListSpec`) |
| WorkListing.CodeListSpec | epictrack-web/src/components/insights/Work/Tabs/General/charts/workListing.tsx:55-61 | a code list holds each truthy code of the sorted works once and nothing else, in their order |
| WorkListing.CodeListSortInvariant | epictrack-web/src/components/insights/Work/Tabs/General/charts/workListing.tsx:55 | any reordering of the works offers the same codes |
| WorkListing.Accessor | epictrack-web/src/components/insights/Work/Tabs/General/charts/workListing.tsx:46-53 | "abbreviation" exactly for "ministry", "name" otherwise |
| WorkListing.SortKey | epictrack-web/src/components/insights/Work/Tabs/General/charts/workListing.tsx:47-54 | `project.name` for projects, `key.sort_order` otherwise |
| WorkListing.CodeKeysReadNames | epictrack-web/src/components/insights/Work/Tabs/General/charts/workListing.tsx:38-54 | every iterated code type reads "name"; the sort keys of the three types |
| WorkListing.MultiSelectFilter | epictrack-web/src/components/insights/Work/Tabs/General/charts/workListing.tsx:111-122 | an empty selection, or one longer than the options, passes every row; otherwise a row passes iff its value (falsy read as "") is selected |
| WorkListing.SelectionOfOptions | epictrack-web/src/components/insights/Work/Tabs/General/charts/workListing.tsx:111-122 | with a selection from truthy options, a truthy row passes iff selected and a blank row never passes |
| WorkListing.SelectingEveryOption | epictrack-web/src/components/insights/Work/Tabs/General/charts/workListing.tsx:112-117 | ticking every option is not the select-all case: blank rows are hidden, and a truthy row passes iff some work carries its code |
| WorkListing.WorkListingScreen.constructor | epictrack-web/src/components/insights/Work/Tabs/General/charts/workListing.tsx:20-26 | empty lists, page 0 of size 10 |
| WorkListing.WorkListingScreen.DeriveCodeLists | epictrack-web/src/components/insights/Work/Tabs/General/charts/workListing.tsx:44-65 | after the loop each list is the code list of the works sorted by its key |
| WorkListing.WorkListingScreen.ReceiveWorks | epictrack-web/src/components/insights/Work/Tabs/General/charts/workListing.tsx:29-36 | works is data or []; page size becomes the number of works, page index kept; lists re-derived |
| WorkListing.WorkListingScreen.OnPaginationChange | epictrack-web/src/components/insights/Work/Tabs/General/charts/workListing.tsx:229 | the pagination becomes the table's |
| WorkPhases.FindByPhaseId | epictrack-web/src/components/workPlan/phase/PhaseContainer.tsx:32-35 | the first phase with the id, or none exactly when no phase has it |
| PhaseContainer.CompletedPhases | epictrack-web/src/components/workPlan/phase/PhaseContainer.tsx:21-24 | the phases whose `is_completed` is set, in input order (related to the input by `PhasesPartition`) |
| PhaseContainer.CurrentAndFuturePhases | epictrack-web/src/components/workPlan/phase/PhaseContainer.tsx:17-20 | the phases whose `is_completed` is not set, in input order (related to the input by `PhasesPartition`) |
| PhaseContainer.PhasesPartition | epictrack-web/src/components/workPlan/phase/PhaseContainer.tsx:17-24 | each phase is in exactly the list its completion flag picks; order kept; sizes and multisets add up |
| PhaseContainer.Render | epictrack-web/src/components/workPlan/phase/PhaseContainer.tsx:44-102 | the no-phases view iff there are no phases; switch iff a phase is completed; caption iff one is not; completed phases hidden when the switch is off |
| PhaseContainer.RenderListsPhases | epictrack-web/src/components/workPlan/phase/PhaseContainer.tsx:74-102 | the current and future phases are listed in input order after the completed ones, which are listed in input order when the switch is on; switch on: every phase listed once; switch off: exactly the unfinished phases listed |
| PhaseContainer.PhaseContainerScreen.constructor | epictrack-web/src/components/workPlan/phase/PhaseContainer.tsx:15 | the completed-phases switch starts on |
| PhaseContainer.PhaseContainerScreen.InitSelectedPhase | epictrack-web/src/components/workPlan/phase/PhaseContainer.tsx:26-38 | selects the first phase with the current id only when the id is truthy, there are phases and none is selected; an existing selection is never overwritten |
| PhaseContainer.PhaseContainerScreen.SetShowCompletedPhases | epictrack-web/src/components/workPlan/phase/PhaseContainer.tsx:62 | the switch takes the checked value |
| CardBody.StatusOutOfDate | epictrack-web/src/components/myWorkplans/Card/CardBody.tsx:21-23 | out of date whenever the posted date is missing; otherwise as the external check says |
| CardBody.WorkTitle | epictrack-web/src/components/myWorkplans/Card/CardBody.tsx:28-30 | the work type name alone for a blank simple title, followed by " - " and the simple title otherwise |
| CardBody.WorkTitleDistinguishes | epictrack-web/src/components/myWorkplans/Card/CardBody.tsx:28-30 | the title starts with the work type name; a simple title lengthens it; different simple titles give different titles |
| CardBody.CurrentWorkPhaseInfo | epictrack-web/src/components/myWorkplans/Card/CardBody.tsx:32-38 | null iff no phase_info; a found entry carries the current id; undefined iff no entry does |
| CardBody.CurrentWorkPhaseInfoIsFind | epictrack-web/src/components/myWorkplans/Card/CardBody.tsx:32-38 | filter-then-head is the first entry with the current id, as `find` gives |
| CardBody.DaysLeftColour | epictrack-web/src/components/myWorkplans/Card/CardBody.tsx:100-113 | neutral colour iff a current phase was found with days left > 0, error colour otherwise |
| CardBody.ShowsCurrentPhase | epictrack-web/src/components/myWorkplans/Card/CardBody.tsx:76 | `!!currentWorkPhaseInfo`: a phase entry was found (characterised by `ShownPhaseRow`) |
| CardBody.ShownPhaseRow | epictrack-web/src/components/myWorkplans/Card/CardBody.tsx:76 | the phase row shows iff some entry has the current id; a neutral indicator implies the row is shown |
| Insights.GetInsightGenerator | epictrack-api/src/api/insights/__init__.py:9-19 | a generator exactly for "works" with "team", "lead" or "staff"; otherwise a KeyError on the first missing key |
| Insights.GeneratorTableBijective | epictrack-api/src/api/insights/__init__.py:11-17 | each generator is reached by its own grouping key and by no other |
| Insights.KnownGenerators | epictrack-api/src/api/insights/__init__.py:13-15 | team, lead and staff give their generators |

## Left out

- Numbers are integers. NaN, fractions, -0 and JavaScript's loose equality between
  strings and numbers are not modelled. Selections and options compare by value,
  as `includes` and `===` do on primitives.
- Nested objects (a row's `ea_act`, a work's `project`) are flattened to the value
  read from them. Object identity plays no part: every option list holds
  primitive values.
- React effect scheduling, memoisation, re-renders and the race between
  overlapping fetches are not modelled. An effect is modelled as a method called
  right after the state it depends on changes (`TemplatesChanged`,
  `DeriveCodeLists`, `InitSelectedPhase`).
- The network services (`ReportService`, `TaskService`, `useGetWorksQuery`) are
  not modelled. Their settled result is a parameter. The `error` notification of
  the works table and the console log of a failed template fetch are left out.
- The `sort` helper, `isStatusOutOfDate`, `daysLeft`, `rowsPerPageOptions`, date
  formatting and CSV export are external helpers whose code is not part of this
  model. `sort` is a parameter, and the code lists are stated against its output.
  `isStatusOutOfDate` is a boolean parameter.
- TemplateList.NameOptions: a template whose `ea_act`, `phase` or `work_type` is
  null makes the source throw. The model reads each name directly, so that case
  is not modelled.
- CardBody.StatusOutOfDate, CardBody.CurrentWorkPhaseInfo: a card whose
  `status_info` is null throws when its posted date or description is read
  (CardBody.tsx lines 25 and 195), and a phase entry whose `work_phase` is null
  throws in the lookup (line 35). The model reads these objects as always
  present, so those crashes are not modelled.
- PhaseContainer.CompletedPhases, PhaseContainer.CurrentAndFuturePhases: a phase
  whose `work_phase` is null makes both filters throw (PhaseContainer.tsx lines
  18 and 22). The model reads the completion flag directly, so that crash is
  not modelled.
- ResourceForecast.FetchOutcome: a 200 reply whose body is an object without a
  `data` property sets the report data to `undefined`, which the later reads of
  the screen do not survive. The model's body is either rows or missing, so that
  case is not modelled.
- ResourceForecast.CellText: a row with fewer months than the first row gives
  None where the source's accessor would throw.
- The other option lists of the resource forecast are all `filterFn` of a
  field, covered by `FilterFnSpec`: project, EA type, work lead, responsible EPD,
  EAO team, CAIRT lead, phase, EA act, IAAC and the two region fields.
- Rendering, styling, tooltips, table configuration and the help-page hook are
  not modelled.
- The insight generator classes themselves are only named, as the `Generator`
  datatype. Calling the lookup twice gives the same result because it is a
  function.
