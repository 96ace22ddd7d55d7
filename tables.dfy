/** The rows of the backend tables `projects`, `svgs`, `notifications` and
    `profiles` as the pages read them, the update payloads the pages send,
    and the client-side aggregates several pages compute over SVG rows. */
module Tables {
  import opened Common
  import opened Strings

  type Id = string

  /** The signed-in identity; timestamps of the auth record are not used. */
  datatype User = User(id: Id, email: string)

  /** An auth session; its token is opaque to the application. */
  datatype Session = Session(user: User, token: string)

  datatype ProjectRow = ProjectRow(
    id: Id,
    userId: Id,
    name: string,
    description: Option<string>,
    color: Option<string>,
    isPublic: bool,
    createdAt: int,
    updatedAt: int)

  datatype SvgRow = SvgRow(
    id: Id,
    userId: Id,
    projectId: Id,
    name: string,
    description: Option<string>,
    filePath: string,
    fileSize: Option<int>,
    tags: Option<seq<string>>,
    views: Option<int>,
    downloads: Option<int>,
    favorited: bool,
    createdAt: int)

  /** The `data` payload of a fork notification. */
  datatype ForkData = ForkData(forkedBy: Id, originalProjectId: Id, forkedProjectId: Id)

  datatype Notification = Notification(
    userId: Id, kind: string, title: string, message: string, data: ForkData)

  datatype Profile = Profile(displayName: Option<string>, avatarUrl: Option<string>)

  /** A project row with its SVG rows embedded by a nested select
      (`svgs(...)`); the embedded list may be missing. */
  datatype ProjectWithSvgs = ProjectWithSvgs(project: ProjectRow, svgs: Option<seq<SvgRow>>)

  /** The fields the project settings dialog writes. */
  datatype ProjectUpdate = ProjectUpdate(
    name: string, description: Option<string>, color: Option<string>, isPublic: bool)

  /** The fields the SVG settings dialog writes. */
  datatype SvgUpdate = SvgUpdate(
    name: string, description: Option<string>, projectId: Id, tags: Option<seq<string>>)

  // Column accessors, used as keys of `.eq` queries.
  function IdOfSvg(s: SvgRow): Id { s.id }
  function ProjectOfSvg(s: SvgRow): Id { s.projectId }
  function OwnerOfSvg(s: SvgRow): Id { s.userId }
  function IdOfProject(p: ProjectRow): Id { p.id }
  function OwnerOfProject(p: ProjectRow): Id { p.userId }

  // Per-row counters with a missing value read as 0 (`svg.views || 0`).
  function ViewsOf(s: SvgRow): int { OrZero(s.views) }
  function DownloadsOf(s: SvgRow): int { OrZero(s.downloads) }
  function SizeOf(s: SvgRow): int { OrZero(s.fileSize) }
  predicate IsFavorited(s: SvgRow) { s.favorited }

  /** `rows.reduce((sum, svg) => sum + (svg.views || 0), 0)`. */
  function TotalViews(rows: seq<SvgRow>): (r: int)
    ensures r == Sum(rows, ViewsOf)
  {
    FoldSumIsSum(0, rows, ViewsOf);
    FoldSum(0, rows, ViewsOf)
  }

  /** `rows.reduce((sum, svg) => sum + (svg.downloads || 0), 0)`. */
  function TotalDownloads(rows: seq<SvgRow>): (r: int)
    ensures r == Sum(rows, DownloadsOf)
  {
    FoldSumIsSum(0, rows, DownloadsOf);
    FoldSum(0, rows, DownloadsOf)
  }

  /** `rows.reduce((sum, svg) => sum + (svg.file_size || 0), 0)`. */
  function TotalSize(rows: seq<SvgRow>): (r: int)
    ensures r == Sum(rows, SizeOf)
  {
    FoldSumIsSum(0, rows, SizeOf);
    FoldSum(0, rows, SizeOf)
  }

  /** `rows.filter(svg => svg.favorited).length`. */
  function FavoriteCount(rows: seq<SvgRow>): (r: nat)
    ensures r == Count(rows, IsFavorited)
  {
    |Filter(rows, IsFavorited)|
  }

  // The same aggregates over an embedded list that may be missing
  // (`project.svgs?.reduce(...) || 0`).

  function ViewsOfList(rows: Option<seq<SvgRow>>): (r: int)
    ensures r == if rows.Some? then Sum(rows.value, ViewsOf) else 0
  {
    if rows.Some? then TotalViews(rows.value) else 0
  }

  function DownloadsOfList(rows: Option<seq<SvgRow>>): (r: int)
    ensures r == if rows.Some? then Sum(rows.value, DownloadsOf) else 0
  {
    if rows.Some? then TotalDownloads(rows.value) else 0
  }

  function SizeOfList(rows: Option<seq<SvgRow>>): (r: int)
    ensures r == if rows.Some? then Sum(rows.value, SizeOf) else 0
  {
    if rows.Some? then TotalSize(rows.value) else 0
  }

  function FavoritesOfList(rows: Option<seq<SvgRow>>): (r: nat)
    ensures r == if rows.Some? then Count(rows.value, IsFavorited) else 0
  {
    if rows.Some? then FavoriteCount(rows.value) else 0
  }

  /** `list?.length || 0` for an embedded list that may be missing. */
  function LengthOr0<T>(rows: Option<seq<T>>): nat {
    match rows
    case None => 0
    case Some(s) => |s|
  }

  /** `user?.id`. */
  function UserId(user: Option<User>): Option<Id> {
    match user
    case None => None
    case Some(u) => Some(u.id)
  }

  /** `user?.id === ownerId`: holds exactly for a signed-in user whose id
      is `ownerId`. */
  predicate IsOwner(user: Option<User>, ownerId: Id)
    ensures IsOwner(user, ownerId) <==> user.Some? && user.value.id == ownerId
  {
    UserId(user) == Some(ownerId)
  }

  /** The name a downloaded file is saved under: the SVG's name, with
      `.svg` appended unless it already ends so. */
  function DownloadName(name: string): (r: string)
    ensures EndsWith(r, ".svg")
    ensures EndsWith(name, ".svg") ==> r == name
    ensures !EndsWith(name, ".svg") ==> r == name + ".svg"
  {
    if EndsWith(name, ".svg") then name
    else
      assert (name + ".svg")[|name + ".svg"| - 4..] == ".svg";
      name + ".svg"
  }

  lemma DownloadNameIdempotent(name: string)
    ensures DownloadName(DownloadName(name)) == DownloadName(name)
  {
  }

  /** No two rows share an id. */
  ghost predicate UniqueIds(rows: seq<SvgRow>) {
    forall i, j :: 0 <= i < |rows| && 0 <= j < |rows| && rows[i].id == rows[j].id ==> i == j
  }
}
