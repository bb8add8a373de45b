/** The phase list of a work plan: completed phases and current/future phases,
    the one-shot choice of the selected phase, and what the list shows. */
module PhaseContainer {
  import opened JsValues
  import opened Sequences
  import opened WorkPhases

  predicate IsCompleted(p: WorkPhaseInfo)
  {
    p.workPhase.isCompleted
  }

  predicate IsNotCompleted(p: WorkPhaseInfo)
  {
    !p.workPhase.isCompleted
  }

  /** workPhases.filter(p => p.work_phase.is_completed) */
  function CompletedPhases(phases: seq<WorkPhaseInfo>): seq<WorkPhaseInfo>
  {
    Filter(IsCompleted, phases)
  }

  /** workPhases.filter(p => !p.work_phase.is_completed) */
  function CurrentAndFuturePhases(phases: seq<WorkPhaseInfo>): seq<WorkPhaseInfo>
  {
    Filter(IsNotCompleted, phases)
  }

  /** The two lists partition the phases: each phase is in exactly the list its
      completion flag picks, both keep the original order, and together they hold
      every phase as often as the input does. */
  lemma PhasesPartition(phases: seq<WorkPhaseInfo>)
    ensures |CompletedPhases(phases)| + |CurrentAndFuturePhases(phases)| == |phases|
    ensures multiset(CompletedPhases(phases)) + multiset(CurrentAndFuturePhases(phases)) == multiset(phases)
    ensures forall p :: p in CompletedPhases(phases) <==> p in phases && p.workPhase.isCompleted
    ensures forall p :: p in CurrentAndFuturePhases(phases) <==> p in phases && !p.workPhase.isCompleted
    ensures IsSubsequence(CompletedPhases(phases), phases)
    ensures IsSubsequence(CurrentAndFuturePhases(phases), phases)
  {
    FilterSplit(IsCompleted, IsNotCompleted, phases);
    FilterMembers(IsCompleted, phases);
    FilterMembers(IsNotCompleted, phases);
    FilterSubsequence(IsCompleted, phases);
    FilterSubsequence(IsNotCompleted, phases);
  }

  /** What the container renders. */
  datatype PhaseView =
    | NoPhases
    | PhaseList(showToggle: bool, completedShown: seq<WorkPhaseInfo>, showCaption: bool, currentShown: seq<WorkPhaseInfo>)

  /** The "no phases" message for an empty list; otherwise the completed-phases
      switch (when there is a completed phase), the completed phases (when the
      switch is on), the caption (when there is a current or future phase) and the
      current and future phases. */
  function Render(phases: seq<WorkPhaseInfo>, showCompletedPhases: bool): (v: PhaseView)
    ensures v.NoPhases? <==> phases == []
    ensures v.PhaseList? ==> (v.showToggle <==> exists p :: p in phases && p.workPhase.isCompleted)
    ensures v.PhaseList? ==> (v.showCaption <==> exists p :: p in phases && !p.workPhase.isCompleted)
    ensures v.PhaseList? && !showCompletedPhases ==> v.completedShown == []
  {
    var completed := CompletedPhases(phases);
    var current := CurrentAndFuturePhases(phases);
    FilterMembers(IsCompleted, phases);
    FilterMembers(IsNotCompleted, phases);
    if |phases| == 0 then NoPhases
    else
      assert completed != [] ==> completed[0] in completed;
      assert current != [] ==> current[0] in current;
      PhaseList(|completed| > 0, if showCompletedPhases then completed else [], |current| > 0, current)
  }

  /** The completed phases (when the switch is on) come first and the current and
      future phases after them, each in input order. With the switch on every phase
      is listed once; with it off exactly the current and future ones are. */
  lemma RenderListsPhases(phases: seq<WorkPhaseInfo>, showCompletedPhases: bool)
    requires phases != []
    ensures Render(phases, showCompletedPhases).currentShown == CurrentAndFuturePhases(phases)
    ensures showCompletedPhases ==> Render(phases, showCompletedPhases).completedShown == CompletedPhases(phases)
    ensures showCompletedPhases ==>
      multiset(Render(phases, showCompletedPhases).completedShown) + multiset(Render(phases, showCompletedPhases).currentShown) == multiset(phases)
    ensures !showCompletedPhases ==>
      forall p :: p in Render(phases, showCompletedPhases).currentShown <==> p in phases && !p.workPhase.isCompleted
  {
    PhasesPartition(phases);
  }

  /** ctx.work?.current_work_phase_id as a condition: defined and non-zero. */
  predicate IdIsTruthy(id: Option<int>)
  {
    id.Some? && id.value != 0
  }

  /** The phase list's share of the work-plan context, and its own switch. */
  class PhaseContainerScreen {
    var workPhases: seq<WorkPhaseInfo>
    var currentWorkPhaseId: Option<int>
    var selectedWorkPhase: Option<WorkPhaseInfo>
    var showCompletedPhases: bool

    /** Mounting over a context: the switch starts on. */
    constructor (phases: seq<WorkPhaseInfo>, currentId: Option<int>, selected: Option<WorkPhaseInfo>)
      ensures workPhases == phases && currentWorkPhaseId == currentId && selectedWorkPhase == selected
      ensures showCompletedPhases
    {
      workPhases, currentWorkPhaseId, selectedWorkPhase := phases, currentId, selected;
      showCompletedPhases := true;
    }

    /** The effect on [workPhases, work]: when the work has a current phase id, there
        are phases and none is selected yet, select the first phase with that id
        (None when no phase has it); otherwise leave the selection alone. */
    method InitSelectedPhase()
      modifies this`selectedWorkPhase
      ensures IdIsTruthy(currentWorkPhaseId) && |workPhases| > 0 && old(selectedWorkPhase).None? ==>
        selectedWorkPhase == FindByPhaseId(workPhases, currentWorkPhaseId.value)
      ensures !(IdIsTruthy(currentWorkPhaseId) && |workPhases| > 0 && old(selectedWorkPhase).None?) ==>
        selectedWorkPhase == old(selectedWorkPhase)
      ensures old(selectedWorkPhase).Some? ==> selectedWorkPhase == old(selectedWorkPhase)
    {
      if IdIsTruthy(currentWorkPhaseId) && |workPhases| > 0 && selectedWorkPhase.None? {
        var phase := FindByPhaseId(workPhases, currentWorkPhaseId.value);
        selectedWorkPhase := phase;
      }
    }

    /** The switch's onChange. */
    method SetShowCompletedPhases(checked: bool)
      modifies this`showCompletedPhases
      ensures showCompletedPhases == checked
    {
      showCompletedPhases := checked;
    }
  }
}
