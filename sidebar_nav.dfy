/** The sidebar: the signed-in user's project list with SVG counts, the
    active-link style and the collapsible projects section. */
module SidebarNav {
  import opened Common
  import opened Tables

  /** The colour class used when a project has none. */
  const DefaultColor := "bg-blue-500"

  const ActiveClass := "bg-primary text-primary-foreground"
  const InactiveClass := "hover:bg-accent hover:text-accent-foreground"

  /** One entry of the projects section. */
  datatype NavProject = NavProject(id: Id, name: string, count: nat, color: string)

  /** `project.color || 'bg-blue-500'`: a missing or empty colour falls back. */
  function ColorOrDefault(color: Option<string>): (r: string)
    ensures r != ""
    ensures color.Some? && color.value != "" ==> r == color.value
    ensures color.None? || color == Some("") ==> r == DefaultColor
  {
    if color.Some? && color.value != "" then color.value else DefaultColor
  }

  function NavProjectOf(p: ProjectWithSvgs): (r: NavProject)
    ensures r.id == p.project.id && r.name == p.project.name
    ensures r.count == if p.svgs.Some? then |p.svgs.value| else 0
    ensures r.color == ColorOrDefault(p.project.color)
  {
    NavProject(p.project.id, p.project.name, LengthOr0(p.svgs), ColorOrDefault(p.project.color))
  }

  /** The `user-projects` query result: nothing without a user or without
      data, otherwise one entry per fetched project, in the fetched order. */
  function UserProjects(user: Option<User>, data: Option<seq<ProjectWithSvgs>>): (r: seq<NavProject>)
    ensures user.None? || data.None? ==> r == []
    ensures user.Some? && data.Some? ==>
      |r| == |data.value| && forall i :: 0 <= i < |r| ==> r[i] == NavProjectOf(data.value[i])
  {
    if user.None? || data.None? then [] else Map(data.value, NavProjectOf)
  }

  /** `getNavCls`. */
  function NavClass(isActive: bool): (r: string)
    ensures r == ActiveClass <==> isActive
    ensures r == InactiveClass <==> !isActive
  {
    if isActive then ActiveClass else InactiveClass
  }

  /** The projects section's body: nothing unless the sidebar is open and
      the section expanded; then the entries and, when the loaded list is
      empty, the "No projects yet" note. */
  datatype ProjectsPanel = Hidden | Listed(entries: seq<NavProject>, emptyNote: bool)

  function ProjectsPanelOf(open: bool, expanded: bool, userProjects: Option<seq<NavProject>>): (r: ProjectsPanel)
    ensures r.Hidden? <==> !(open && expanded)
    ensures r.Listed? ==> r.entries == (if userProjects.Some? then userProjects.value else [])
    ensures r.Listed? && r.emptyNote <==> open && expanded && userProjects == Some([])
  {
    if !(open && expanded) then Hidden
    else Listed(if userProjects.Some? then userProjects.value else [], userProjects == Some([]))
  }

  class SidebarState {
    var projectsExpanded: bool

    /** The projects section starts expanded. */
    constructor ()
      ensures projectsExpanded
    {
      projectsExpanded := true;
    }

    /** A click on the section label flips it only while the sidebar is open. */
    method ToggleProjects(open: bool)
      modifies this
      ensures projectsExpanded == if open then !old(projectsExpanded) else old(projectsExpanded)
    {
      if open {
        projectsExpanded := !projectsExpanded;
      }
    }
  }
}
