/** The phases of a work as the work-plan screens receive them. */
module WorkPhases {
  import opened JsValues

  /** work_phase: the phase of the work, with whether it is completed. */
  datatype WorkPhase = WorkPhase(id: int, name: JsValue, isCompleted: bool)

  /** WorkPhaseAdditionalInfo: a phase with its day counts. */
  datatype WorkPhaseInfo = WorkPhaseInfo(workPhase: WorkPhase, daysLeft: int, totalNumberOfDays: int)

  /** phases.find(p => p.work_phase.id === id): the first phase with that id, or
      None (undefined) when there is none. */
  function FindByPhaseId(phases: seq<WorkPhaseInfo>, id: int): (r: Option<WorkPhaseInfo>)
    ensures r.None? <==> forall i :: 0 <= i < |phases| ==> phases[i].workPhase.id != id
    ensures r.Some? ==> exists i :: 0 <= i < |phases| && phases[i] == r.value && FirstWithId(phases, id, i)
  {
    if phases == [] then None
    else if phases[0].workPhase.id == id then Some(phases[0])
    else
      var r := FindByPhaseId(phases[1..], id);
      if r.Some? then
        assert exists i :: 0 <= i < |phases| && phases[i] == r.value && FirstWithId(phases, id, i) by {
          var i :| 0 <= i < |phases[1..]| && phases[1..][i] == r.value && FirstWithId(phases[1..], id, i);
          assert phases[i + 1] == r.value && FirstWithId(phases, id, i + 1);
        }
        r
      else
        assert forall i :: 1 <= i < |phases| ==> phases[i] == phases[1..][i - 1];
        r
  }

  /** Position i holds the first phase whose id is id. */
  ghost predicate FirstWithId(phases: seq<WorkPhaseInfo>, id: int, i: int)
  {
    && 0 <= i < |phases|
    && phases[i].workPhase.id == id
    && forall j :: 0 <= j < i ==> phases[j].workPhase.id != id
  }
}
