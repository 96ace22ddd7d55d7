/** The Analytics page: the signed-in user's overview totals, the rows of
    the top-SVGs table and the per-project summaries. */
module Analytics {
  import opened Common
  import opened Tables
  import opened Backend

  /** The overview card values (the mock growth figures are not kept). */
  datatype Overview = Overview(
    totalViews: int, totalDownloads: int, totalFavorites: nat, totalUploads: nat, svgs: seq<SvgRow>)

  /** The overview query: nothing without a user or when the user's SVGs
      could not be read; otherwise totals over exactly the user's SVGs. */
  function OverviewOf(user: Option<User>, db: Db, ok: bool): (r: Option<Overview>)
    ensures r.Some? <==> user.Some? && ok
    ensures r.Some? ==>
      var mine := Where(db.svgs, OwnerOfSvg, user.value.id);
      && r.value.svgs == mine
      && r.value.totalViews == Sum(mine, ViewsOf)
      && r.value.totalDownloads == Sum(mine, DownloadsOf)
      && r.value.totalFavorites == Count(mine, IsFavorited)
      && r.value.totalUploads == |mine|
  {
    if user.None? then None
    else
      var svgs := if ok then Some(Where(db.svgs, OwnerOfSvg, user.value.id)) else None;
      if svgs.None? then None
      else
        var rows := svgs.value;
        Some(Overview(TotalViews(rows), TotalDownloads(rows), FavoriteCount(rows), |rows|, rows))
  }

  /** No SVG of another user moves the overview totals. */
  lemma {:induction false} OverviewIgnoresOthers(user: User, db: Db, other: SvgRow, ok: bool)
    requires other.userId != user.id
    ensures OverviewOf(Some(user), db.(svgs := db.svgs + [other]), ok) == OverviewOf(Some(user), db, ok)
  {
    WhereAppendOther(db.svgs, other, user.id);
  }

  lemma {:induction false} WhereAppendOther(rows: seq<SvgRow>, other: SvgRow, id: Id)
    requires other.userId != id
    ensures Where(rows + [other], OwnerOfSvg, id) == Where(rows, OwnerOfSvg, id)
  {
    if rows == [] {
      assert rows + [other] == [other];
    } else {
      assert (rows + [other])[1..] == rows[1..] + [other];
      WhereAppendOther(rows[1..], other, id);
    }
  }

  /** One row of the top-SVGs table. */
  datatype TopSvg = TopSvg(id: Id, name: string, project: string, views: int, downloads: int, favorites: nat)

  /** The row built from an SVG and its joined project name. */
  function TopSvgRow(svg: SvgRow, projectName: Option<string>): (r: TopSvg)
    ensures r.id == svg.id && r.name == svg.name
    ensures r.project == if projectName.None? || projectName.value == "" then "Unknown" else projectName.value
    ensures r.views == ViewsOf(svg) && r.downloads == DownloadsOf(svg)
    ensures r.favorites == if svg.favorited then 1 else 0
  {
    var project := match projectName
      case None => "Unknown"
      case Some(n) => if n == "" then "Unknown" else n;
    TopSvg(svg.id, svg.name, project, OrZero(svg.views), OrZero(svg.downloads), if svg.favorited then 1 else 0)
  }

  function TopSvgRowOf(entry: (SvgRow, Option<string>)): TopSvg {
    TopSvgRow(entry.0, entry.1)
  }

  /** The top-SVGs query: `data` is what the database returns for the
      user's five most viewed SVGs, each with its project's name. */
  function TopSvgRows(user: Option<User>, data: Option<seq<(SvgRow, Option<string>)>>): (r: seq<TopSvg>)
    ensures user.None? || data.None? ==> r == []
    ensures user.Some? && data.Some? ==>
      |r| == |data.value| && forall i :: 0 <= i < |r| ==> r[i] == TopSvgRow(data.value[i].0, data.value[i].1)
  {
    if user.None? then []
    else match data
      case None => []
      case Some(rows) => Map(rows, TopSvgRowOf)
  }

  /** The favourites column of the top-SVGs table counts the favourites
      among the listed SVGs. */
  lemma {:induction false} TopSvgFavoritesCount(entries: seq<(SvgRow, Option<string>)>)
    ensures Sum(Map(entries, TopSvgRowOf), FavoritesOfRow) == Count(Map(entries, SvgOfEntry), IsFavorited)
  {
    if entries != [] {
      TopSvgFavoritesCount(entries[1..]);
      assert Map(entries, TopSvgRowOf)[1..] == Map(entries[1..], TopSvgRowOf);
      assert Map(entries, SvgOfEntry)[1..] == Map(entries[1..], SvgOfEntry);
    }
  }

  function FavoritesOfRow(r: TopSvg): int { r.favorites }
  function SvgOfEntry(entry: (SvgRow, Option<string>)): SvgRow { entry.0 }

  /** One project row: its SVG count and the sums over its SVGs. */
  datatype ProjectSummary = ProjectSummary(
    id: Id, name: string, svgs: nat, views: int, downloads: int, totalSize: int)

  function SummaryOf(p: ProjectWithSvgs): (r: ProjectSummary)
    ensures r.id == p.project.id && r.name == p.project.name
    ensures r.svgs == LengthOr0(p.svgs)
    ensures r.views == if p.svgs.Some? then Sum(p.svgs.value, ViewsOf) else 0
    ensures r.downloads == if p.svgs.Some? then Sum(p.svgs.value, DownloadsOf) else 0
    ensures r.totalSize == if p.svgs.Some? then Sum(p.svgs.value, SizeOf) else 0
  {
    ProjectSummary(p.project.id, p.project.name, LengthOr0(p.svgs),
                   ViewsOfList(p.svgs), DownloadsOfList(p.svgs), SizeOfList(p.svgs))
  }

  /** The top-projects query: one summary per fetched project, in order. */
  function ProjectSummaries(user: Option<User>, data: Option<seq<ProjectWithSvgs>>): (r: seq<ProjectSummary>)
    ensures user.None? || data.None? ==> r == []
    ensures user.Some? && data.Some? ==>
      |r| == |data.value| && forall i :: 0 <= i < |r| ==> r[i] == SummaryOf(data.value[i])
  {
    if user.None? then []
    else match data
      case None => []
      case Some(projects) => Map(projects, SummaryOf)
  }
}
