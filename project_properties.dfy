/** The project properties page: the project's SVG statistics, its most
    recent uploads, rounded averages and rate, and the activity timeline. */
module ProjectProperties {
  import opened Common
  import opened Tables
  import opened Backend

  datatype SvgStats = SvgStats(
    totalSvgs: nat, totalViews: int, totalDownloads: int, recentActivity: seq<SvgRow>)

  function CreatedAt(s: SvgRow): int { s.createdAt }

  /** `multiset(s) - multiset(r)` holds only rows no newer than any of `r`. */
  ghost predicate NewestFirst(r: seq<SvgRow>, rows: seq<SvgRow>) {
    forall s, i :: s in multiset(rows) - multiset(r) && 0 <= i < |r| ==> s.createdAt <= r[i].createdAt
  }

  lemma TakeSplit(s: seq<SvgRow>, k: nat)
    requires k <= |s|
    ensures multiset(s) == multiset(s[..k]) + multiset(s[k..])
  {
    assert s == s[..k] + s[k..];
  }

  /** A prefix of a list sorted newest first holds its newest rows. */
  lemma PrefixIsNewest(sorted: seq<SvgRow>, k: nat)
    requires k <= |sorted| && NonIncreasing(sorted, CreatedAt)
    ensures multiset(sorted[..k]) <= multiset(sorted)
    ensures NewestFirst(sorted[..k], sorted)
  {
    TakeSplit(sorted, k);
    forall s, i | s in multiset(sorted) - multiset(sorted[..k]) && 0 <= i < k
      ensures s.createdAt <= sorted[..k][i].createdAt
    {
      assert s in multiset(sorted[k..]);
      var j :| k <= j < |sorted| && sorted[j] == s;
      assert CreatedAt(sorted[i]) >= CreatedAt(sorted[j]);
    }
  }

  /** `rows.sort(newest first).slice(0, 5)`: the five newest rows (fewer
      when there are fewer), newest first. */
  function RecentActivity(rows: seq<SvgRow>): (r: seq<SvgRow>)
    ensures |r| == if |rows| < 5 then |rows| else 5
    ensures multiset(r) <= multiset(rows)
    ensures NonIncreasing(r, CreatedAt)
    ensures NewestFirst(r, rows)
  {
    var sorted := SortDesc(rows, CreatedAt);
    var r := Take(sorted, 5);
    PrefixIsNewest(sorted, |r|);
    r
  }

  /** The statistics query: nothing without a project id or when the rows
      could not be read; otherwise totals over exactly the project's SVGs. */
  function StatsOf(projectId: Option<Id>, db: Db, ok: bool): (r: Option<SvgStats>)
    ensures r.Some? <==> projectId.Some? && ok
    ensures r.Some? ==>
      var rows := Where(db.svgs, ProjectOfSvg, projectId.value);
      && r.value.totalSvgs == |rows|
      && r.value.totalViews == Sum(rows, ViewsOf)
      && r.value.totalDownloads == Sum(rows, DownloadsOf)
      && r.value.recentActivity == RecentActivity(rows)
  {
    if projectId.None? then None
    else
      var svgs := if ok then Some(Where(db.svgs, ProjectOfSvg, projectId.value)) else None;
      if svgs.None? then None
      else
        var rows := svgs.value;
        Some(SvgStats(|rows|, TotalViews(rows), TotalDownloads(rows), RecentActivity(rows)))
  }

  // ---------------------------------------------------------------------
  // `Math.round` of a ratio, guarded against a zero divisor.

  /** `Math.round(a / b)` for `b > 0` in exact arithmetic: the integer
      nearest to `a / b`, halves rounded up. */
  function RoundedRatio(a: int, b: int): (r: int)
    requires b > 0
    ensures 2 * b * r <= 2 * a + b < 2 * b * (r + 1)
  {
    var q := (2 * a + b) / (2 * b);
    assert 2 * a + b == 2 * b * q + (2 * a + b) % (2 * b);
    q
  }

  /** `den > 0 ? Math.round(num / den) : 0`. */
  function GuardedRound(num: int, den: int): (r: int)
    ensures den <= 0 ==> r == 0
    ensures den > 0 ==> 2 * den * r <= 2 * num + den < 2 * den * (r + 1)
  {
    if den > 0 then RoundedRatio(num, den) else 0
  }

  lemma CancelFactor(c: int, x: int, y: int)
    requires c > 0 && c * x < c * y
    ensures x < y
  {
  }

  /** The rounding is exact on an exact quotient. */
  lemma {:induction false} GuardedRoundExact(k: int, den: int)
    requires den > 0
    ensures GuardedRound(k * den, den) == k
  {
    var r := GuardedRound(k * den, den);
    var c := 2 * den;
    assert c * r <= c * k + den < c * (k + 1);
    CancelFactor(c, r, k + 1);
    assert c * k < c * k + den < c * (r + 1);
    CancelFactor(c, k, r + 1);
  }

  /** Average views per SVG: `Math.round(views / svgs)` when there are SVGs, else 0. */
  function AverageViews(stats: SvgStats): (r: int)
    ensures stats.totalSvgs <= 0 ==> r == 0
    ensures stats.totalSvgs > 0 ==>
      2 * stats.totalSvgs * r <= 2 * stats.totalViews + stats.totalSvgs < 2 * stats.totalSvgs * (r + 1)
  {
    GuardedRound(stats.totalViews, stats.totalSvgs)
  }

  /** Average downloads per SVG: `Math.round(downloads / svgs)` when there are SVGs, else 0. */
  function AverageDownloads(stats: SvgStats): (r: int)
    ensures stats.totalSvgs <= 0 ==> r == 0
    ensures stats.totalSvgs > 0 ==>
      2 * stats.totalSvgs * r <= 2 * stats.totalDownloads + stats.totalSvgs < 2 * stats.totalSvgs * (r + 1)
  {
    GuardedRound(stats.totalDownloads, stats.totalSvgs)
  }

  /** `Math.round(downloads / views * 100)` when there are views, else 0. */
  function DownloadRate(stats: SvgStats): (r: int)
    ensures stats.totalViews <= 0 ==> r == 0
    ensures stats.totalViews > 0 ==>
      2 * stats.totalViews * r <= 200 * stats.totalDownloads + stats.totalViews < 2 * stats.totalViews * (r + 1)
  {
    GuardedRound(100 * stats.totalDownloads, stats.totalViews)
  }

  /** With no more downloads than views the rate is a percentage. */
  lemma {:induction false} DownloadRateIsPercentage(stats: SvgStats)
    requires 0 <= stats.totalDownloads <= stats.totalViews
    ensures 0 <= DownloadRate(stats) <= 100
  {
    var v, d := stats.totalViews, stats.totalDownloads;
    if v > 0 {
      var r := DownloadRate(stats);
      var c := 2 * v;
      assert c * r <= 2 * (100 * d) + v < c * (r + 1);
      assert c * r < c * 101;
      CancelFactor(c, r, 101);
      assert c * 0 < c * (r + 1);
      CancelFactor(c, 0, r + 1);
    }
  }

  // ---------------------------------------------------------------------
  // The activity timeline.

  datatype TimelineEntry = ProjectCreated(at: int) | ProjectUpdated(at: int) | SvgUploaded(at: int)

  function UploadEntry(s: SvgRow): TimelineEntry { SvgUploaded(s.createdAt) }

  /** The "Project updated" entry, present iff `updated_at` differs from
      `created_at`. */
  function UpdateEntries(project: ProjectRow): (r: seq<TimelineEntry>)
    ensures |r| <= 1
    ensures r != [] <==> project.updatedAt != project.createdAt
    ensures forall e :: e in r ==> e == ProjectUpdated(project.updatedAt)
  {
    if project.updatedAt != project.createdAt then [ProjectUpdated(project.updatedAt)] else []
  }

  /** The upload entries: the first three recent uploads at most. */
  function UploadEntries(stats: Option<SvgStats>): (r: seq<TimelineEntry>)
    ensures |r| <= 3
    ensures stats.None? ==> r == []
    ensures stats.Some? ==>
      var recent := stats.value.recentActivity;
      && |r| == (if |recent| < 3 then |recent| else 3)
      && forall i :: 0 <= i < |r| ==> r[i] == SvgUploaded(recent[i].createdAt)
  {
    if stats.None? then [] else Map(Take(stats.value.recentActivity, 3), UploadEntry)
  }

  /** The timeline card: creation first, then the update entry, then the
      upload entries. */
  function Timeline(project: ProjectRow, stats: Option<SvgStats>): (r: seq<TimelineEntry>)
    ensures r == [ProjectCreated(project.createdAt)] + UpdateEntries(project) + UploadEntries(stats)
    ensures |r| == 1 + |UpdateEntries(project)| + |UploadEntries(stats)|
    ensures r[0] == ProjectCreated(project.createdAt)
    ensures (exists e :: e in r && e.ProjectUpdated?) <==> project.updatedAt != project.createdAt
  {
    var u := UpdateEntries(project);
    var w := UploadEntries(stats);
    var r := [ProjectCreated(project.createdAt)] + u + w;
    assert forall e :: e in w ==> e.SvgUploaded? by {
      forall e | e in w ensures e.SvgUploaded? {
        var i :| 0 <= i < |w| && w[i] == e;
      }
    }
    assert u != [] ==> u[0] in r;
    r
  }
}
