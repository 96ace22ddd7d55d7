/** The project settings dialog: its form, the owner gate, the update
    payload and the two-step project deletion. */
module ProjectSettings {
  import opened Common
  import opened Tables
  import opened Backend
  import opened SvgSettings

  /** The colours offered, as (class, label) pairs. */
  const ColorOptions: seq<(string, string)> := [
    ("bg-blue-500", "Blue"), ("bg-green-500", "Green"), ("bg-purple-500", "Purple"),
    ("bg-red-500", "Red"), ("bg-orange-500", "Orange"), ("bg-pink-500", "Pink"),
    ("bg-yellow-500", "Yellow"), ("bg-gray-500", "Gray")]

  datatype ProjectForm = ProjectForm(name: string, description: string, color: Option<string>, isPublic: bool)

  /** The form as the dialog opens: a missing description shows as "". */
  function InitialProjectForm(p: ProjectRow): ProjectForm {
    ProjectForm(p.name, OrEmpty(p.description), p.color, p.isPublic)
  }

  /** The update sent on save: an empty description is stored as null. */
  function UpdatePayload(form: ProjectForm): (u: ProjectUpdate)
    ensures u.name == form.name && u.color == form.color && u.isPublic == form.isPublic
    ensures u.description == NullIfEmpty(form.description)
  {
    ProjectUpdate(form.name, NullIfEmpty(form.description), form.color, form.isPublic)
  }

  /** Saving the dialog as it opened writes the row's own values back,
      except that an empty description becomes null. */
  lemma UntouchedProjectSave(p: ProjectRow)
    ensures var u := UpdatePayload(InitialProjectForm(p));
      u.name == p.name && u.color == p.color && u.isPublic == p.isPublic
      && u.description == (if p.description == Some("") then None else p.description)
  {
    NullIfEmptyOrEmpty(p.description);
  }

  /** The dialog renders only for the project's owner. */
  function ShowsProjectSettings(user: Option<User>, p: ProjectRow): (r: bool)
    ensures r <==> user.Some? && user.value.id == p.userId
  {
    IsOwner(user, p.userId)
  }

  /** The tables after the delete: the project's SVG rows go when that
      request succeeds, the project row when its own request does. */
  function AfterDelete(db: Db, projectId: Id, svgsOk: bool, projectOk: bool): (r: Db)
    ensures r.svgs == if svgsOk then WhereNot(db.svgs, ProjectOfSvg, projectId) else db.svgs
    ensures r.projects == if projectOk then WhereNot(db.projects, IdOfProject, projectId) else db.projects
    ensures r.notifications == db.notifications && r.profiles == db.profiles && r.files == db.files
  {
    var db1 := if svgsOk then db.(svgs := WhereNot(db.svgs, ProjectOfSvg, projectId)) else db;
    if projectOk then db1.(projects := WhereNot(db1.projects, IdOfProject, projectId)) else db1
  }

  /** Deleting the rows of one project leaves every other project's rows
      exactly as they were, in order. */
  lemma {:induction false} DeleteKeepsOtherProjects(svgs: seq<SvgRow>, projectId: Id, other: Id)
    requires other != projectId
    ensures Where(WhereNot(svgs, ProjectOfSvg, projectId), ProjectOfSvg, other) == Where(svgs, ProjectOfSvg, other)
  {
    if svgs != [] {
      DeleteKeepsOtherProjects(svgs[1..], projectId, other);
    }
  }

  /** After a complete delete no row of the project is left. */
  lemma DeleteLeavesNothingBehind(db: Db, projectId: Id)
    ensures var r := AfterDelete(db, projectId, true, true);
      Where(r.svgs, ProjectOfSvg, projectId) == [] && (forall p :: p in r.projects ==> p.id != projectId)
  {
    var left := Where(WhereNot(db.svgs, ProjectOfSvg, projectId), ProjectOfSvg, projectId);
    assert multiset(left) == multiset{};
  }

  /** The SVG delete's error is ignored: when it fails and the project
      delete succeeds, the project's SVG rows remain without their project. */
  lemma FailedSvgDeleteOrphansRows(db: Db, projectId: Id)
    ensures var r := AfterDelete(db, projectId, false, true);
      Where(r.svgs, ProjectOfSvg, projectId) == Where(db.svgs, ProjectOfSvg, projectId)
      && (forall p :: p in r.projects ==> p.id != projectId)
  {
  }

  class SettingsDialog {
    var open: bool
    var form: ProjectForm

    /** Closed, with the form filled from the project. */
    constructor (p: ProjectRow)
      ensures !open && form == InitialProjectForm(p)
    {
      open := false;
      form := InitialProjectForm(p);
    }

    method SetOpen(value: bool)
      modifies this
      ensures open == value && form == old(form)
    {
      open := value;
    }

    method EditName(text: string)
      modifies this
      ensures form == old(form).(name := text) && open == old(open)
    {
      form := form.(name := text);
    }

    method EditDescription(text: string)
      modifies this
      ensures form == old(form).(description := text) && open == old(open)
    {
      form := form.(description := text);
    }

    method PickColor(value: string)
      modifies this
      ensures form == old(form).(color := Some(value)) && open == old(open)
    {
      form := form.(color := Some(value));
    }

    method SetPublic(checked: bool)
      modifies this
      ensures form == old(form).(isPublic := checked) && open == old(open)
    {
      form := form.(isPublic := checked);
    }

    /** `handleSubmit`: the form's payload is written to the project row;
        the dialog closes only when the update succeeds. */
    method Submit(client: Client, projectId: Id, ok: bool) returns (saved: bool)
      modifies this, client
      ensures saved == ok
      ensures client.db == if ok then old(client.db).(projects := WithProjectUpdate(old(client.db).projects, projectId, UpdatePayload(form)))
                           else old(client.db)
      ensures client.log == old(client.log) + [UpdateProjectCall(projectId, UpdatePayload(form))]
      ensures client.session == old(client.session)
      ensures form == old(form) && open == (if ok then false else old(open))
    {
      saved := client.UpdateProject(projectId, UpdatePayload(form), ok);
      if saved {
        open := false;
      }
    }
  }

  /** The delete confirmation: first the project's SVG rows, whose error is
      ignored, then the project row; the delete succeeds exactly when the
      second request does. */
  method DeleteProject(client: Client, projectId: Id, svgsOk: bool, projectOk: bool) returns (deleted: bool)
    modifies client
    ensures deleted == projectOk
    ensures client.db == AfterDelete(old(client.db), projectId, svgsOk, projectOk)
    ensures client.log == old(client.log) + [DeleteSvgsOfProjectCall(projectId), DeleteProjectCall(projectId)]
    ensures client.session == old(client.session)
  {
    var _ := client.DeleteSvgsOfProject(projectId, svgsOk);
    deleted := client.DeleteProject(projectId, projectOk);
  }
}
