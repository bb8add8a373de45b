/** The body of a work-plan card: whether its status is out of date, its title,
    the phase it is currently in and the colour of the days-left indicator. */
module CardBody {
  import opened JsValues
  import opened Sequences
  import opened WorkPhases

  /** isStatusOutOfDate(status_info) || !status_info?.posted_date, with the external
      check's answer given as judgedOutOfDate. */
  function StatusOutOfDate(judgedOutOfDate: bool, postedDate: JsValue): (outOfDate: bool)
    ensures !Truthy(postedDate) ==> outOfDate
    ensures Truthy(postedDate) ==> (outOfDate <==> judgedOutOfDate)
  {
    judgedOutOfDate || !Truthy(postedDate)
  }

  /** `${work_type.name}${simple_title ? ` - ${simple_title}` : ""}` */
  function WorkTitle(workTypeName: JsValue, simpleTitle: JsValue): (title: string)
    ensures !Truthy(simpleTitle) ==> title == ToDisplayString(workTypeName)
    ensures Truthy(simpleTitle) ==> title == ToDisplayString(workTypeName) + " - " + ToDisplayString(simpleTitle)
  {
    ToDisplayString(workTypeName) + if Truthy(simpleTitle) then " - " + ToDisplayString(simpleTitle) else ""
  }

  /** A truthy value never prints as the empty string. */
  lemma TruthyDisplaysNonEmpty(v: JsValue)
    requires Truthy(v)
    ensures ToDisplayString(v) != ""
  {
    match v
    case Num(n) =>
      if n < 0 {
        assert ToDisplayString(v)[0] == '-';
      } else {
        NatToStringNonEmpty(n);
      }
    case _ =>
  }

  lemma {:induction false} NatToStringNonEmpty(n: nat)
    ensures |NatToString(n)| > 0
  {
    if n >= 10 {
      NatToStringNonEmpty(n / 10);
    }
  }

  /** The title starts with the work type's name; a simple title lengthens it and
      two different simple titles give two different titles. */
  lemma WorkTitleDistinguishes(workTypeName: JsValue, s1: JsValue, s2: JsValue)
    ensures ToDisplayString(workTypeName) <= WorkTitle(workTypeName, s1)
    ensures Truthy(s1) ==> |WorkTitle(workTypeName, s1)| > |ToDisplayString(workTypeName)| + 3
    ensures Truthy(s1) && Truthy(s2) && ToDisplayString(s1) != ToDisplayString(s2) ==>
      WorkTitle(workTypeName, s1) != WorkTitle(workTypeName, s2)
  {
    var name := ToDisplayString(workTypeName);
    if Truthy(s1) {
      TruthyDisplaysNonEmpty(s1);
      if Truthy(s2) && ToDisplayString(s1) != ToDisplayString(s2) {
        var t1, t2 := WorkTitle(workTypeName, s1), WorkTitle(workTypeName, s2);
        assert t1[|name| + 3..] == ToDisplayString(s1);
        assert t2[|name| + 3..] == ToDisplayString(s2);
      }
    }
  }

  /** The memoised currentWorkPhaseInfo: null when the card has no phase_info, the
      first entry of the filtered list when one matches, undefined otherwise. */
  datatype PhaseLookup = NullInfo | UndefinedInfo | Info(info: WorkPhaseInfo)

  /** p => p.work_phase.id === current_work_phase_id */
  function HasPhaseId(currentWorkPhaseId: Option<int>): WorkPhaseInfo -> bool
  {
    (p: WorkPhaseInfo) => currentWorkPhaseId == Some(p.workPhase.id)
  }

  /** phase_info.filter(p => p.work_phase.id === current_work_phase_id)[0] */
  function CurrentWorkPhaseInfo(phaseInfo: Option<seq<WorkPhaseInfo>>, currentWorkPhaseId: Option<int>): (r: PhaseLookup)
    ensures r.NullInfo? <==> phaseInfo.None?
    ensures r.Info? ==> r.info in phaseInfo.value && currentWorkPhaseId == Some(r.info.workPhase.id)
    ensures r.UndefinedInfo? <==> phaseInfo.Some? && forall p :: p in phaseInfo.value ==> currentWorkPhaseId != Some(p.workPhase.id)
  {
    if phaseInfo.None? then NullInfo
    else
      var matches := Filter(HasPhaseId(currentWorkPhaseId), phaseInfo.value);
      FilterMembers(HasPhaseId(currentWorkPhaseId), phaseInfo.value);
      if |matches| > 0 then
        assert matches[0] in matches;
        Info(matches[0])
      else
        UndefinedInfo
  }

  lemma {:induction false} FilterHeadIsFind(phases: seq<WorkPhaseInfo>, id: int)
    ensures Filter(HasPhaseId(Some(id)), phases) == [] <==> FindByPhaseId(phases, id).None?
    ensures Filter(HasPhaseId(Some(id)), phases) != [] ==>
      Filter(HasPhaseId(Some(id)), phases)[0] == FindByPhaseId(phases, id).value
  {
    if phases != [] {
      FilterHeadIsFind(phases[1..], id);
    }
  }

  /** Filtering and taking the head finds the same phase as the phase list's find:
      the first entry carrying the current id. */
  lemma CurrentWorkPhaseInfoIsFind(phaseInfo: seq<WorkPhaseInfo>, id: int)
    ensures CurrentWorkPhaseInfo(Some(phaseInfo), Some(id)) ==
      match FindByPhaseId(phaseInfo, id)
      case None => UndefinedInfo
      case Some(p) => Info(p)
  {
    FilterHeadIsFind(phaseInfo, id);
  }

  /** The two colours of the days-left indicator. */
  datatype Colour = NeutralMain | ErrorMain

  /** currentWorkPhaseInfo?.days_left > 0 ? neutral : error */
  function DaysLeftColour(lookup: PhaseLookup): (c: Colour)
    ensures c == NeutralMain <==> lookup.Info? && lookup.info.daysLeft > 0
    ensures c == ErrorMain <==> !(lookup.Info? && lookup.info.daysLeft > 0)
  {
    if lookup.Info? && lookup.info.daysLeft > 0 then NeutralMain else ErrorMain
  }

  /** !!currentWorkPhaseInfo: the phase row and the milestone row are shown only
      when a current phase was found. */
  predicate ShowsCurrentPhase(lookup: PhaseLookup)
  {
    lookup.Info?
  }

  /** A card shows its phase row exactly when its phase_info has an entry for the
      current phase; the indicator is neutral exactly when that entry has days left. */
  lemma ShownPhaseRow(phaseInfo: Option<seq<WorkPhaseInfo>>, currentWorkPhaseId: Option<int>)
    ensures ShowsCurrentPhase(CurrentWorkPhaseInfo(phaseInfo, currentWorkPhaseId)) <==>
      phaseInfo.Some? && exists p :: p in phaseInfo.value && currentWorkPhaseId == Some(p.workPhase.id)
    ensures DaysLeftColour(CurrentWorkPhaseInfo(phaseInfo, currentWorkPhaseId)) == NeutralMain ==>
      ShowsCurrentPhase(CurrentWorkPhaseInfo(phaseInfo, currentWorkPhaseId))
  {
  }
}
