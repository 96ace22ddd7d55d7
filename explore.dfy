/** The Explore page: metrics of the public projects, the ranking
    comparators of projects and SVGs, the restriction of the SVG list to
    public projects, and forking a project. */
module Explore {
  import opened Common
  import opened Tables
  import opened Backend

  // ---------------------------------------------------------------------
  // Project cards and their ranking.

  /** A public project with the metrics the page derives from its SVGs. */
  datatype ProjectCard = ProjectCard(
    project: ProjectRow, totalViews: int, totalDownloads: int, totalFavorites: nat, svgCount: nat)

  /** The per-project metrics map; a missing SVG list counts as empty. */
  function WithMetrics(p: ProjectWithSvgs): (c: ProjectCard)
    ensures c.project == p.project
    ensures c.totalViews == if p.svgs.Some? then Sum(p.svgs.value, ViewsOf) else 0
    ensures c.totalDownloads == if p.svgs.Some? then Sum(p.svgs.value, DownloadsOf) else 0
    ensures c.totalFavorites == if p.svgs.Some? then Count(p.svgs.value, IsFavorited) else 0
    ensures c.svgCount == LengthOr0(p.svgs)
  {
    ProjectCard(p.project, ViewsOfList(p.svgs), DownloadsOfList(p.svgs), FavoritesOfList(p.svgs),
                LengthOr0(p.svgs))
  }

  /** The key each sort option ranks projects by; any other option is
      "trending". */
  function ProjectSortKey(sortBy: string, c: ProjectCard): int {
    if sortBy == "views" then c.totalViews
    else if sortBy == "downloads" then c.totalDownloads
    else if sortBy == "recent" then c.project.createdAt
    else c.totalViews + c.totalDownloads + c.totalFavorites
  }

  /** The project comparator as the page writes it (negative: `a` first). */
  function CompareProjects(sortBy: string, a: ProjectCard, b: ProjectCard): int {
    if sortBy == "views" then b.totalViews - a.totalViews
    else if sortBy == "downloads" then b.totalDownloads - a.totalDownloads
    else if sortBy == "recent" then b.project.createdAt - a.project.createdAt
    else (b.totalViews + b.totalDownloads + b.totalFavorites)
         - (a.totalViews + a.totalDownloads + a.totalFavorites)
  }

  lemma CompareProjectsByKey(sortBy: string, a: ProjectCard, b: ProjectCard)
    ensures CompareProjects(sortBy, a, b) == ProjectSortKey(sortBy, b) - ProjectSortKey(sortBy, a)
  {
  }

  /** A list ordered by non-increasing key is ordered by the comparator. */
  lemma ProjectKeyOrder(r: seq<ProjectCard>, sortBy: string)
    requires forall i, j :: 0 <= i < j < |r| ==> ProjectSortKey(sortBy, r[i]) >= ProjectSortKey(sortBy, r[j])
    ensures forall i, j :: 0 <= i < j < |r| ==> CompareProjects(sortBy, r[i], r[j]) <= 0
  {
    forall i, j | 0 <= i < j < |r|
    {
      CompareProjectsByKey(sortBy, r[i], r[j]);
    }
  }

  /** The public-projects query result: no data gives no cards; otherwise
      every fetched project once, with its metrics, ranked so that no card
      is placed before one the comparator puts ahead of it. */
  function RankedProjects(data: Option<seq<ProjectWithSvgs>>, sortBy: string): (r: seq<ProjectCard>)
    ensures data.None? ==> r == []
    ensures data.Some? ==> multiset(r) == multiset(Map(data.value, WithMetrics))
    ensures forall i, j :: 0 <= i < j < |r| ==> CompareProjects(sortBy, r[i], r[j]) <= 0
  {
    if data.None? then []
    else
      var key := (c: ProjectCard) => ProjectSortKey(sortBy, c);
      var r := SortDesc(Map(data.value, WithMetrics), key);
      assert forall i, j :: 0 <= i < j < |r| ==> ProjectSortKey(sortBy, r[i]) >= ProjectSortKey(sortBy, r[j]);
      ProjectKeyOrder(r, sortBy);
      r
  }

  // ---------------------------------------------------------------------
  // Public SVGs and their ranking.

  /** The key each sort option ranks SVGs by; "trending" is views plus
      downloads. */
  function SvgSortKey(sortBy: string, s: SvgRow): int {
    if sortBy == "views" then ViewsOf(s)
    else if sortBy == "downloads" then DownloadsOf(s)
    else if sortBy == "recent" then s.createdAt
    else ViewsOf(s) + DownloadsOf(s)
  }

  /** The SVG comparator as the page writes it. */
  function CompareSvgs(sortBy: string, a: SvgRow, b: SvgRow): int {
    if sortBy == "views" then OrZero(b.views) - OrZero(a.views)
    else if sortBy == "downloads" then OrZero(b.downloads) - OrZero(a.downloads)
    else if sortBy == "recent" then b.createdAt - a.createdAt
    else (OrZero(b.views) + OrZero(b.downloads)) - (OrZero(a.views) + OrZero(a.downloads))
  }

  lemma CompareSvgsByKey(sortBy: string, a: SvgRow, b: SvgRow)
    ensures CompareSvgs(sortBy, a, b) == SvgSortKey(sortBy, b) - SvgSortKey(sortBy, a)
  {
  }

  ghost predicate HasPublicProject(projects: seq<ProjectRow>, id: Id) {
    exists p :: p in projects && p.isPublic && p.id == id
  }

  /** `select('id').eq('is_public', true)` on the projects table. */
  function PublicProjectIds(projects: seq<ProjectRow>): (r: seq<Id>)
    ensures forall id :: id in r <==> HasPublicProject(projects, id)
  {
    if projects == [] then []
    else
      var rest := PublicProjectIds(projects[1..]);
      assert projects == [projects[0]] + projects[1..];
      (if projects[0].isPublic then [projects[0].id] else []) + rest
  }

  lemma SvgKeyOrder(r: seq<SvgRow>, sortBy: string)
    requires forall i, j :: 0 <= i < j < |r| ==> SvgSortKey(sortBy, r[i]) >= SvgSortKey(sortBy, r[j])
    ensures forall i, j :: 0 <= i < j < |r| ==> CompareSvgs(sortBy, r[i], r[j]) <= 0
  {
    forall i, j | 0 <= i < j < |r| {
      CompareSvgsByKey(sortBy, r[i], r[j]);
    }
  }

  /** `rows.sort(...)` with the SVG comparator: the same rows, ranked. */
  function RankSvgs(rows: seq<SvgRow>, sortBy: string): (r: seq<SvgRow>)
    ensures multiset(r) == multiset(rows)
    ensures forall i, j :: 0 <= i < j < |r| ==> CompareSvgs(sortBy, r[i], r[j]) <= 0
  {
    var key := (s: SvgRow) => SvgSortKey(sortBy, s);
    var r := SortDesc(rows, key);
    assert forall i, j :: 0 <= i < j < |r| ==> SvgSortKey(sortBy, r[i]) >= SvgSortKey(sortBy, r[j]);
    SvgKeyOrder(r, sortBy);
    r
  }

  /** `.in('project_id', ids)`. */
  function InProjects(rows: seq<SvgRow>, ids: seq<Id>): (r: seq<SvgRow>)
    ensures multiset(r) <= multiset(rows)
    ensures forall s :: multiset(r)[s] == if s.projectId in ids then multiset(rows)[s] else 0
    ensures forall s :: s in r <==> s in rows && s.projectId in ids
  {
    Filter(rows, (s: SvgRow) => s.projectId in ids)
  }

  /** `.ilike('name', ...)`, decided by the database's test `nameMatches`. */
  function NamesMatching(rows: seq<SvgRow>, nameMatches: string -> bool): (r: seq<SvgRow>)
    ensures multiset(r) <= multiset(rows)
    ensures forall s :: multiset(r)[s] == if nameMatches(s.name) then multiset(rows)[s] else 0
    ensures forall s :: s in r <==> s in rows && nameMatches(s.name)
  {
    Filter(rows, (s: SvgRow) => nameMatches(s.name))
  }

  /** The public-SVGs query. `idsOk` and `svgsOk` are the outcomes of the
      two requests; `nameMatches` is the database's `ilike` test of a name
      against the search text, consulted only when that text is not
      empty. */
  function PublicSvgs(db: Db, searchQuery: string, nameMatches: string -> bool, sortBy: string,
                      idsOk: bool, svgsOk: bool): (r: seq<SvgRow>)
    ensures !idsOk || !svgsOk ==> r == []
    ensures forall i, j :: 0 <= i < j < |r| ==> CompareSvgs(sortBy, r[i], r[j]) <= 0
  {
    var ids := if idsOk then PublicProjectIds(db.projects) else [];
    if |ids| == 0 || !svgsOk then []
    else RankSvgs(SearchFiltered(InProjects(db.svgs, ids), searchQuery, nameMatches), sortBy)
  }

  /** The name filter applied only for a non-empty search text. */
  function SearchFiltered(rows: seq<SvgRow>, searchQuery: string, nameMatches: string -> bool): (r: seq<SvgRow>)
    ensures multiset(r) <= multiset(rows)
    ensures forall s :: multiset(r)[s] == if searchQuery != "" ==> nameMatches(s.name) then multiset(rows)[s] else 0
    ensures forall s :: s in r <==> s in rows && (searchQuery != "" ==> nameMatches(s.name))
  {
    if searchQuery != "" then NamesMatching(rows, nameMatches) else rows
  }

  /** Which rows the public-SVGs query returns, each as often as stored:
      exactly the stored SVGs of public projects that pass the name filter. */
  lemma PublicSvgsContents(db: Db, searchQuery: string, nameMatches: string -> bool, sortBy: string)
    ensures var r := PublicSvgs(db, searchQuery, nameMatches, sortBy, true, true);
      && multiset(r) <= multiset(db.svgs)
      && (forall s :: multiset(r)[s] ==
           if HasPublicProject(db.projects, s.projectId) && (searchQuery != "" ==> nameMatches(s.name))
           then multiset(db.svgs)[s] else 0)
      && forall s :: s in r <==>
           s in db.svgs && HasPublicProject(db.projects, s.projectId)
           && (searchQuery != "" ==> nameMatches(s.name))
  {
    var r := PublicSvgs(db, searchQuery, nameMatches, sortBy, true, true);
    var ids := PublicProjectIds(db.projects);
    if |ids| != 0 {
      var named := SearchFiltered(InProjects(db.svgs, ids), searchQuery, nameMatches);
      assert multiset(r) == multiset(named);
      forall s ensures s in r <==> s in named {
        assert s in r <==> multiset(r)[s] > 0;
        assert s in named <==> multiset(named)[s] > 0;
      }
    } else {
      assert forall id :: HasPublicProject(db.projects, id) ==> id in ids;
    }
  }

  /** Whatever the outcomes, every returned SVG is stored and belongs to a
      public project. */
  lemma PublicSvgsArePublic(db: Db, searchQuery: string, nameMatches: string -> bool, sortBy: string,
                            idsOk: bool, svgsOk: bool)
    ensures var r := PublicSvgs(db, searchQuery, nameMatches, sortBy, idsOk, svgsOk);
      forall s :: s in r ==> s in db.svgs && HasPublicProject(db.projects, s.projectId)
  {
    if idsOk && svgsOk {
      PublicSvgsContents(db, searchQuery, nameMatches, sortBy);
    }
  }

  /** With no public project the SVG list is empty. */
  lemma NoPublicProjectNoSvgs(db: Db, searchQuery: string, nameMatches: string -> bool, sortBy: string,
                              idsOk: bool, svgsOk: bool)
    requires forall p :: p in db.projects ==> !p.isPublic
    ensures PublicSvgs(db, searchQuery, nameMatches, sortBy, idsOk, svgsOk) == []
  {
  }

  // ---------------------------------------------------------------------
  // Forking a project.

  datatype ForkOutcome = SignInRequired | ForkFailed | Forked(projectId: Id)

  /** The project row the fork inserts; the backend supplies its id and
      timestamps, and the color is left to the column default. */
  function ForkedProject(name: string, forker: Id, newId: Id, now: int): ProjectRow {
    ProjectRow(newId, forker, name + " (Fork)", Some("Forked from " + name), None, false, now, now)
  }

  /** `p` is the fork of a project called `name` made by `forker`. */
  predicate IsForkOf(p: ProjectRow, name: string, forker: Id) {
    p.name == name + " (Fork)" && p.description == Some("Forked from " + name)
    && p.userId == forker && !p.isPublic
  }

  /** `c` copies the metadata of `original` into `projectId` for `forker`,
      sharing its stored file. */
  predicate IsCopyOf(c: SvgRow, original: SvgRow, forker: Id, projectId: Id) {
    c.name == original.name && c.description == original.description
    && c.filePath == original.filePath && c.tags == original.tags
    && c.userId == forker && c.projectId == projectId
  }

  /** The copied rows, one per original and in the same order; the copies
      start without counters, size or favourite flag. */
  function ForkedSvgs(originals: seq<SvgRow>, forker: Id, projectId: Id, newIds: seq<Id>, now: int): (r: seq<SvgRow>)
    requires |newIds| == |originals|
    ensures |r| == |originals|
    ensures forall i :: 0 <= i < |r| ==> IsCopyOf(r[i], originals[i], forker, projectId)
    ensures forall i :: 0 <= i < |r| ==> r[i].id == newIds[i]
  {
    seq(|originals|, i requires 0 <= i < |originals| =>
      SvgRow(newIds[i], forker, projectId, originals[i].name, originals[i].description,
             originals[i].filePath, None, originals[i].tags, None, None, false, now))
  }

  /** The notification sent to the original owner. */
  function ForkNotice(forker: User, originalUserId: Id, projectId: Id, name: string, forkId: Id): Notification {
    Notification(originalUserId, "fork", "Project Forked",
                 forker.email + " forked your project \"" + name + "\"",
                 ForkData(forker.id, projectId, forkId))
  }

  /** When the fork's id was unused by any SVG, the SVGs of the fork after
      the copy insert are exactly the copies. */
  lemma {:induction false} ForkHoldsExactlyCopies(svgs: seq<SvgRow>, copies: seq<SvgRow>, forkId: Id)
    requires forall s :: s in svgs ==> s.projectId != forkId
    requires forall c :: c in copies ==> c.projectId == forkId
    ensures Where(svgs + copies, ProjectOfSvg, forkId) == copies
  {
    if svgs == [] {
      assert svgs + copies == copies;
      WhereAll(copies, forkId);
    } else {
      assert (svgs + copies)[1..] == svgs[1..] + copies;
      ForkHoldsExactlyCopies(svgs[1..], copies, forkId);
    }
  }

  lemma {:induction false} WhereAll(rows: seq<SvgRow>, id: Id)
    requires forall c :: c in rows ==> c.projectId == id
    ensures Where(rows, ProjectOfSvg, id) == rows
  {
    if rows != [] {
      assert rows == [rows[0]] + rows[1..];
      WhereAll(rows[1..], id);
    }
  }

  /** The SVG table after the copy step: the copies are added when there
      were originals and their insert succeeded. */
  function WithCopies(db: Db, copies: seq<SvgRow>, copied: bool, copyOk: bool): Db {
    db.(svgs := db.svgs + (if copied && copyOk then copies else []))
  }

  /** The notification table after the best-effort notice. */
  function WithNotice(db: Db, notice: Notification, notifyOk: bool): Db {
    if notifyOk then db.(notifications := db.notifications + [notice]) else db
  }

  /** The requests of the copy step: the select, then the copy insert only
      when there was something to copy. */
  function CopyCalls(projectId: Id, copies: seq<SvgRow>, copied: bool): seq<Call> {
    [SelectSvgsOfProjectCall(projectId)] + (if copied then [InsertSvgsCall(copies)] else [])
  }

  /** Read the original's SVG rows and insert their copies when there
      are any; an error on the insert is ignored. */
  method CopySvgs(client: Client, forker: Id, projectId: Id, forkId: Id, newSvgIds: seq<Id>, now: int,
                  selectOk: bool, copyOk: bool)
    requires |newSvgIds| == |Where(client.db.svgs, ProjectOfSvg, projectId)|
    modifies client
    ensures client.session == old(client.session)
    ensures
      var originals := Where(old(client.db.svgs), ProjectOfSvg, projectId);
      var copies := ForkedSvgs(originals, forker, forkId, newSvgIds, now);
      var copied := selectOk && |originals| > 0;
      && client.db == WithCopies(old(client.db), copies, copied, copyOk)
      && client.log == old(client.log) + CopyCalls(projectId, copies, copied)
  {
    ghost var all := Where(client.db.svgs, ProjectOfSvg, projectId);
    var originals := client.SelectSvgsOfProject(projectId, selectOk);
    if originals.Some? && |originals.value| > 0 {
      assert originals.value == all;
      var copies := ForkedSvgs(originals.value, forker, forkId, newSvgIds, now);
      var _ := client.InsertSvgs(copies, copyOk);
    }
  }

  /** `handleForkProject`. `newProjectId`, `newSvgIds` and `now` are what
      the backend assigns; the `...Ok` flags are the outcomes of the
      project insert, the SVG select, the copy insert and the notification
      insert. Only the project insert can make the fork fail. */
  method ForkProject(client: Client, user: Option<User>, projectId: Id, projectName: string,
                     originalUserId: Id, newProjectId: Id, newSvgIds: seq<Id>, now: int,
                     insertOk: bool, selectOk: bool, copyOk: bool, notifyOk: bool)
    returns (outcome: ForkOutcome)
    requires |newSvgIds| == |Where(client.db.svgs, ProjectOfSvg, projectId)|
    modifies client
    ensures client.session == old(client.session)
    ensures user.None? ==>
      outcome == SignInRequired && client.db == old(client.db) && client.log == old(client.log)
    ensures user.Some? && !insertOk ==>
      outcome == ForkFailed && client.db == old(client.db)
      && client.log == old(client.log)
                       + [InsertProjectCall(ForkedProject(projectName, user.value.id, newProjectId, now))]
    ensures user.Some? && insertOk ==>
      var originals := Where(old(client.db.svgs), ProjectOfSvg, projectId);
      var copies := ForkedSvgs(originals, user.value.id, newProjectId, newSvgIds, now);
      var fork := ForkedProject(projectName, user.value.id, newProjectId, now);
      var notice := ForkNotice(user.value, originalUserId, projectId, projectName, newProjectId);
      var copied := selectOk && |originals| > 0;
      && outcome == Forked(newProjectId)
      && IsForkOf(fork, projectName, user.value.id)
      && client.db == WithNotice(WithCopies(old(client.db).(projects := old(client.db.projects) + [fork]),
                                            copies, copied, copyOk), notice, notifyOk)
      && client.log == old(client.log) + [InsertProjectCall(fork)]
                       + CopyCalls(projectId, copies, copied) + [InsertNotificationCall(notice)]
  {
    if user.None? {
      return SignInRequired;
    }
    var forker := user.value;
    var fork := ForkedProject(projectName, forker.id, newProjectId, now);
    var inserted := client.InsertProject(fork, insertOk);
    if inserted.None? {
      return ForkFailed;
    }
    CopySvgs(client, forker.id, projectId, inserted.value.id, newSvgIds, now, selectOk, copyOk);
    var notice := ForkNotice(forker, originalUserId, projectId, projectName, inserted.value.id);
    var _ := client.InsertNotification(notice, notifyOk);
    outcome := Forked(inserted.value.id);
  }
}
