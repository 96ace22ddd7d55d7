/** The project view page: the SVG list query, downloading an SVG with its
    counter write, the favourite toggle and the statistics card. */
module ProjectView {
  import opened Common
  import opened Strings
  import opened Tables
  import opened Backend

  /** The `.order(...)` the list query ends with. */
  datatype SortOrder = Descending(column: string) | AscendingByName

  function SortOrderFor(sortBy: string): (r: SortOrder)
    ensures r.Descending? <==> sortBy == "views" || sortBy == "downloads" || sortBy == "date"
    ensures r.Descending? ==> r.column == if sortBy == "date" then "created_at" else sortBy
  {
    match sortBy
    case "views" => Descending("views")
    case "downloads" => Descending("downloads")
    case "date" => Descending("created_at")
    case _ => AscendingByName
  }

  /** The list query as built: the project filter, an optional `ilike`
      pattern on the name and the order. */
  datatype SvgQuery = SvgQuery(projectId: Id, namePattern: Option<string>, order: SortOrder)

  /** No query is made without a project id (the list is then empty). */
  function ListQuery(projectId: Option<Id>, searchQuery: string, sortBy: string): (r: Option<SvgQuery>)
    ensures r.None? <==> projectId.None?
    ensures r.Some? ==> r.value.projectId == projectId.value && r.value.order == SortOrderFor(sortBy)
    ensures r.Some? ==> (r.value.namePattern.Some? <==> searchQuery != "")
    ensures r.Some? && r.value.namePattern.Some? ==> r.value.namePattern.value == "%" + searchQuery + "%"
  {
    if projectId.None? then None
    else
      var pattern := if searchQuery != "" then Some("%" + searchQuery + "%") else None;
      Some(SvgQuery(projectId.value, pattern, SortOrderFor(sortBy)))
  }

  datatype DownloadResult = DownloadStarted(fileName: string, content: Blob) | DownloadFailed

  /** `handleDownload`: the file is fetched first; only when it came back is
      the counter written, as the page's copy of the count plus one, and an
      error of that write is ignored. */
  method HandleDownload(client: Client, svg: SvgRow, fetchOk: bool, writeOk: bool)
    returns (result: DownloadResult)
    modifies client
    ensures client.session == old(client.session)
    ensures var key := (SvgBucket, svg.filePath);
      if fetchOk && key in old(client.db.files) then
        && result == DownloadStarted(DownloadName(svg.name), old(client.db.files)[key])
        && client.db == (if writeOk
                         then old(client.db).(svgs := WithDownloads(old(client.db.svgs), svg.id, DownloadsOf(svg) + 1))
                         else old(client.db))
        && client.log == old(client.log) + [DownloadCall(SvgBucket, svg.filePath),
                                            SetDownloadsCall(svg.id, DownloadsOf(svg) + 1)]
      else
        && result == DownloadFailed
        && client.db == old(client.db)
        && client.log == old(client.log) + [DownloadCall(SvgBucket, svg.filePath)]
  {
    var fileData := client.Download(SvgBucket, svg.filePath, fetchOk);
    if fileData.None? {
      return DownloadFailed;
    }
    var _ := client.SetDownloads(svg.id, OrZero(svg.downloads) + 1, writeOk);
    result := DownloadStarted(DownloadName(svg.name), fileData.value);
  }

  /** `handleToggleFavorite`: nothing without a user; otherwise the stored
      flag is set to the negation of the page's copy. The page then
      reloads. */
  method HandleToggleFavorite(client: Client, user: Option<User>, svg: SvgRow, ok: bool)
    returns (newStatus: Option<bool>)
    modifies client
    ensures client.session == old(client.session)
    ensures user.None? ==> newStatus.None? && client.db == old(client.db) && client.log == old(client.log)
    ensures user.Some? ==>
      && newStatus == Some(!svg.favorited)
      && client.db == (if ok then old(client.db).(svgs := WithFavorited(old(client.db.svgs), svg.id, !svg.favorited))
                       else old(client.db))
      && client.log == old(client.log) + [SetFavoritedCall(svg.id, !svg.favorited)]
  {
    if user.None? {
      return None;
    }
    var status := !svg.favorited;
    var _ := client.SetFavorited(svg.id, status, ok);
    newStatus := Some(status);
  }

  lemma {:induction false} WithDownloadsAbsent(rows: seq<SvgRow>, id: Id, v: int)
    requires forall s :: s in rows ==> s.id != id
    ensures WithDownloads(rows, id, v) == rows
  {
  }

  /** With unique ids, setting one row's downloads to its count plus one
      raises the project's total downloads by exactly one. */
  lemma {:induction false} DownloadRaisesTotal(rows: seq<SvgRow>, k: nat)
    requires k < |rows| && UniqueIds(rows)
    ensures Sum(WithDownloads(rows, rows[k].id, DownloadsOf(rows[k]) + 1), DownloadsOf)
            == Sum(rows, DownloadsOf) + 1
  {
    var id := rows[k].id;
    var w := WithDownloads(rows, id, DownloadsOf(rows[k]) + 1);
    var rest := rows[1..];
    assert w[1..] == WithDownloads(rest, id, DownloadsOf(rows[k]) + 1);
    if k == 0 {
      assert forall s :: s in rest ==> s.id != id by {
        forall s | s in rest ensures s.id != id {
          var j :| 0 <= j < |rest| && rest[j] == s;
          assert rows[j + 1] == s;
        }
      }
      WithDownloadsAbsent(rest, id, DownloadsOf(rows[k]) + 1);
    } else {
      assert rest[k - 1] == rows[k];
      assert UniqueIds(rest) by {
        forall i, j | 0 <= i < |rest| && 0 <= j < |rest| && rest[i].id == rest[j].id ensures i == j {
          assert rows[i + 1].id == rows[j + 1].id;
        }
      }
      assert rows[0].id != id;
      DownloadRaisesTotal(rest, k - 1);
    }
  }

  /** The statistics card. */
  datatype Statistics = Statistics(totalSvgs: nat, totalViews: int, totalDownloads: int, favorites: nat)

  function StatisticsOf(svgs: Option<seq<SvgRow>>): (r: Statistics)
    ensures r.totalSvgs == LengthOr0(svgs)
    ensures r.totalViews == if svgs.Some? then Sum(svgs.value, ViewsOf) else 0
    ensures r.totalDownloads == if svgs.Some? then Sum(svgs.value, DownloadsOf) else 0
    ensures r.favorites == if svgs.Some? then Count(svgs.value, IsFavorited) else 0
  {
    Statistics(LengthOr0(svgs), ViewsOfList(svgs), DownloadsOfList(svgs), FavoritesOfList(svgs))
  }
}
