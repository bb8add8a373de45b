/** The task-template list screen: the option lists of its three select columns,
    derived from the loaded templates, and the state its handlers change (the fetch
    status, the template list, the selected ids and the three dialog flags). */
module TemplateList {
  import opened JsValues
  import opened Sequences
  import opened Distinct
  import opened Fetch

  /** A template with the names of its EA act, phase and work type
      (t.ea_act.name, t.phase.name, t.work_type.name). */
  datatype Template = Template(id: int, name: JsValue, eaActName: JsValue, phaseName: JsValue, workTypeName: JsValue)

  /** The three columns whose filter options are derived from the templates. */
  datatype NameField = EaAct | Phase | WorkType

  /** t.ea_act.name, t.phase.name or t.work_type.name */
  function NameOf(t: Template, field: NameField): JsValue
  {
    match field
    case EaAct => t.eaActName
    case Phase => t.phaseName
    case WorkType => t.workTypeName
  }

  /** templates.map(t => NameOf(t, field)) */
  function Names(templates: seq<Template>, field: NameField): (names: seq<JsValue>)
    ensures |names| == |templates|
    ensures forall i :: 0 <= i < |templates| ==> names[i] == NameOf(templates[i], field)
  {
    if templates == [] then [] else [NameOf(templates[0], field)] + Names(templates[1..], field)
  }

  /** The option list of a column: the names with the first-occurrence filter applied. */
  function NameOptions(templates: seq<Template>, field: NameField): seq<JsValue>
  {
    KeepFirst(Names(templates, field))
  }

  /** Every template's name is an option, each name once, in order of first
      occurrence. No name is dropped for being falsy: a null or empty name is an
      option too. */
  lemma NameOptionsSpec(templates: seq<Template>, field: NameField)
    ensures NoDuplicates(NameOptions(templates, field))
    ensures forall i :: 0 <= i < |templates| ==> NameOf(templates[i], field) in NameOptions(templates, field)
    ensures forall x :: x in NameOptions(templates, field) <==> exists i :: 0 <= i < |templates| && NameOf(templates[i], field) == x
    ensures InFirstOccurrenceOrder(NameOptions(templates, field), Names(templates, field))
    ensures IsSubsequence(NameOptions(templates, field), Names(templates, field))
  {
    var names := Names(templates, field);
    KeepFirstMembers(names);
    KeepFirstNoDuplicates(names);
    KeepFirstOrder(names);
    KeepFirstSubsequence(names);
    forall x | x in NameOptions(templates, field)
      ensures exists i :: 0 <= i < |templates| && NameOf(templates[i], field) == x
    {
      var i :| 0 <= i < |names| && names[i] == x;
      assert NameOf(templates[i], field) == x;
    }
    forall i | 0 <= i < |templates|
      ensures NameOf(templates[i], field) in NameOptions(templates, field)
    {
      assert names[i] == NameOf(templates[i], field);
    }
  }

  /** onDialogClose ignores a close whose reason is "backdropClick"
      (reason && reason == "backdropClick": only that string compares equal). */
  predicate IsBackdropClick(reason: JsValue)
  {
    Truthy(reason) && reason == Str("backdropClick")
  }

  /** The create/update dialog's title: "Update " when templateId is truthy
      (a defined, non-zero id), "Create " otherwise. */
  function DialogTitle(templateId: Option<int>): (title: string)
    ensures title == "Update Task Template Details" <==> templateId.Some? && templateId.value != 0
    ensures title == "Create Task Template Details" <==> !(templateId.Some? && templateId.value != 0)
  {
    if templateId.Some? && templateId.value != 0 then "Update Task Template Details"
    else "Create Task Template Details"
  }

  class TemplateListScreen {
    var templates: seq<Template>
    var resultStatus: Option<ResultStatus>
    var templateId: Option<int>
    var deleteTemplateId: Option<int>
    var showCreateDialog: bool
    var showDetailsDialog: bool
    var showDeleteDialog: bool
    var eaActs: seq<JsValue>
    var phases: seq<JsValue>
    var workTypes: seq<JsValue>
    /** Every status the screen has been set to, oldest first. */
    ghost var statusLog: seq<ResultStatus>

    /** The option lists are those of the current templates: the effect that derives
        them has run since the templates last changed. */
    ghost predicate Valid()
      reads this`templates, this`eaActs, this`phases, this`workTypes
    {
      && eaActs == NameOptions(templates, EaAct)
      && phases == NameOptions(templates, Phase)
      && workTypes == NameOptions(templates, WorkType)
    }

    /** The initial state: nothing loaded, no ids, every dialog closed. */
    constructor ()
      ensures Valid()
      ensures templates == [] && resultStatus == None && templateId == None && deleteTemplateId == None
      ensures !showCreateDialog && !showDetailsDialog && !showDeleteDialog
      ensures eaActs == [] && phases == [] && workTypes == [] && statusLog == []
    {
      templates, resultStatus, templateId, deleteTemplateId := [], None, None, None;
      showCreateDialog, showDetailsDialog, showDeleteDialog := false, false, false;
      eaActs, phases, workTypes := [], [], [];
      statusLog := [];
    }

    /** The effect on [templates]: re-derive the three option lists. */
    method TemplatesChanged()
      modifies this`eaActs, this`phases, this`workTypes
      ensures Valid()
    {
      eaActs := NameOptions(templates, EaAct);
      phases := NameOptions(templates, Phase);
      workTypes := NameOptions(templates, WorkType);
    }

    /** getTemplates: LOADING, then the templates are replaced on a 200 reply and
        kept otherwise (another status, or a thrown call); the finally block always
        ends in LOADED. */
    method GetTemplates(reply: Reply<seq<Template>>)
      requires Valid()
      modifies this`resultStatus, this`statusLog, this`templates, this`eaActs, this`phases, this`workTypes
      ensures Valid()
      ensures resultStatus == Some(Loaded)
      ensures statusLog == old(statusLog) + [Loading, Loaded]
      ensures templates == if reply.Response? && reply.status == 200 then reply.data else old(templates)
    {
      ghost var log := statusLog;
      SetStatus(Loading);
      if reply.Response? && reply.status == 200 {
        templates := reply.data;
        TemplatesChanged();
      }
      label fetched:
      SetStatus(Loaded);
      assert unchanged@fetched(this`templates, this`eaActs, this`phases, this`workTypes);
      AppendTwo(log, Loading, Loaded);
    }

    /** setResultStatus: the status changes and is logged; the templates and the
        option lists stay as they are. */
    method SetStatus(status: ResultStatus)
      modifies this`resultStatus, this`statusLog
      ensures resultStatus == Some(status) && statusLog == old(statusLog) + [status]
    {
      resultStatus, statusLog := Some(status), statusLog + [status];
    }

    /** onDialogClose: a backdrop click changes nothing; any other close hides the
        create and the details dialogs. */
    method OnDialogClose(reason: JsValue)
      modifies this`showCreateDialog, this`showDetailsDialog
      ensures IsBackdropClick(reason) ==> showCreateDialog == old(showCreateDialog) && showDetailsDialog == old(showDetailsDialog)
      ensures !IsBackdropClick(reason) ==> !showCreateDialog && !showDetailsDialog
    {
      if IsBackdropClick(reason) {
        return;
      }
      showCreateDialog := false;
      showDetailsDialog := false;
    }

    /** onViewDetails: remember the template and open the details dialog. */
    method OnViewDetails(id: int)
      modifies this`templateId, this`showDetailsDialog
      ensures templateId == Some(id) && showDetailsDialog
    {
      templateId := Some(id);
      showDetailsDialog := true;
    }

    /** handleDelete: open the delete dialog for the template. */
    method HandleDelete(id: int)
      modifies this`showDeleteDialog, this`deleteTemplateId
      ensures showDeleteDialog && deleteTemplateId == Some(id)
    {
      showDeleteDialog := true;
      deleteTemplateId := Some(id);
    }

    /** deleteTemplate: on a 200 reply forget the id, close the delete dialog and
        refetch (whose reply is refetch); on any other reply, or when the call
        throws, nothing changes. */
    method DeleteTemplate(reply: Reply<()>, refetch: Reply<seq<Template>>)
      requires Valid()
      modifies this`deleteTemplateId, this`showDeleteDialog
      modifies this`resultStatus, this`statusLog, this`templates, this`eaActs, this`phases, this`workTypes
      ensures Valid()
      ensures reply.Response? && reply.status == 200 ==>
        && deleteTemplateId == None && !showDeleteDialog
        && resultStatus == Some(Loaded)
        && statusLog == old(statusLog) + [Loading, Loaded]
        && templates == (if refetch.Response? && refetch.status == 200 then refetch.data else old(templates))
      ensures !(reply.Response? && reply.status == 200) ==>
        && deleteTemplateId == old(deleteTemplateId) && showDeleteDialog == old(showDeleteDialog)
        && resultStatus == old(resultStatus) && statusLog == old(statusLog) && templates == old(templates)
    {
      if reply.Response? && reply.status == 200 {
        deleteTemplateId := None;
        showDeleteDialog := false;
        GetTemplates(refetch);
      }
    }

    /** The "Create Task Template" button: open the create dialog with no template. */
    method OpenCreateDialog()
      modifies this`showCreateDialog, this`templateId
      ensures showCreateDialog && templateId == None
      ensures DialogTitle(templateId) == "Create Task Template Details"
    {
      showCreateDialog := true;
      templateId := None;
    }

    /** The delete dialog's "No": toggle the dialog flag. */
    method CancelDelete()
      modifies this`showDeleteDialog
      ensures showDeleteDialog == !old(showDeleteDialog)
    {
      showDeleteDialog := !showDeleteDialog;
    }
  }
}
