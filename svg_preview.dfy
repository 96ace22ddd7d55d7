/** The SVG preview page: the query that reads an SVG and counts the view,
    the favourite and download mutations, and the cached copy of the row
    they update. */
module SvgPreview {
  import opened Common
  import opened Tables
  import opened Backend

  /** The view count shown: the fetched count plus the view being made. */
  function DisplayedViews(svg: SvgRow): int {
    ViewsOf(svg) + 1
  }

  /** After the query's write, the displayed count is the stored count. */
  lemma DisplayedViewsIsStored(rows: seq<SvgRow>, k: nat)
    requires k < |rows|
    ensures WithViews(rows, rows[k].id, ViewsOf(rows[k]) + 1)[k].views == Some(DisplayedViews(rows[k]))
  {
  }

  datatype FavoriteOutcome = FavoriteSaved(status: Option<bool>) | FavoriteError

  datatype DownloadOutcome = Downloaded(fileName: string, content: Blob) | NothingToDownload | DownloadError

  class PreviewPage {
    /** The route parameter. */
    const svgId: Option<Id>
    /** The cached query result for this route; missing while there is no
        row. */
    var cache: Option<SvgRow>

    constructor (id: Option<Id>)
      ensures svgId == id && cache.None?
    {
      svgId := id;
      cache := None;
    }

    /** One run of the query function: no id reads nothing; a failed or
        empty read caches nothing; a found row is cached as read and its
        stored views are set once to the read count plus one (that write's
        outcome is not checked). */
    method RunQuery(client: Client, selectOk: bool, writeOk: bool)
      modifies this, client
      ensures client.session == old(client.session)
      ensures svgId.None? ==> cache.None? && client.db == old(client.db) && client.log == old(client.log)
      ensures svgId.Some? ==>
        var id := svgId.value;
        var found := if selectOk then FindSvg(old(client.db.svgs), id) else None;
        && cache == found
        && (found.None? ==>
              client.db == old(client.db) && client.log == old(client.log) + [SelectSvgCall(id)])
        && (found.Some? ==>
              && client.log == old(client.log) + [SelectSvgCall(id), SetViewsCall(id, DisplayedViews(found.value))]
              && client.db == (if writeOk
                               then old(client.db).(svgs := WithViews(old(client.db.svgs), id, DisplayedViews(found.value)))
                               else old(client.db)))
    {
      if svgId.None? {
        cache := None;
        return;
      }
      var id := svgId.value;
      var data := client.SelectSvg(id, selectOk);
      if data.None? {
        cache := None;
        return;
      }
      var _ := client.SetViews(id, OrZero(data.value.views) + 1, writeOk);
      cache := data;
    }

    /** `favoriteMutation` with its success and error handlers. Without a
        row or a user no request is made; the handler then stores the
        missing status, read here as `false`, in a cached row. Otherwise the
        negated flag is written; on success the cached flag becomes it, on
        error the cache is kept. */
    method Favorite(client: Client, user: Option<User>, ok: bool) returns (outcome: FavoriteOutcome)
      modifies this, client
      ensures client.session == old(client.session)
      ensures old(cache).None? || user.None? ==>
        && outcome == FavoriteSaved(None)
        && client.db == old(client.db) && client.log == old(client.log)
        && cache == (if old(cache).Some? then Some(old(cache).value.(favorited := false)) else None)
      ensures old(cache).Some? && user.Some? ==>
        var svg := old(cache).value;
        && client.log == old(client.log) + [SetFavoritedCall(svg.id, !svg.favorited)]
        && (ok ==> outcome == FavoriteSaved(Some(!svg.favorited))
                   && cache == Some(svg.(favorited := !svg.favorited))
                   && client.db == old(client.db).(svgs := WithFavorited(old(client.db.svgs), svg.id, !svg.favorited)))
        && (!ok ==> outcome == FavoriteError && cache == old(cache) && client.db == old(client.db))
    {
      // mutationFn
      var status: Option<bool>;
      if cache.None? || user.None? {
        status := None;
      } else {
        var svg := cache.value;
        var newStatus := !svg.favorited;
        var saved := client.SetFavorited(svg.id, newStatus, ok);
        if !saved {
          return FavoriteError;
        }
        status := Some(newStatus);
      }
      // onSuccess
      if cache.Some? {
        var flag := if status.Some? then status.value else false;
        cache := Some(cache.value.(favorited := flag));
      }
      outcome := FavoriteSaved(status);
    }

    /** `downloadMutation` with its handlers. The counter is written before
        the file is fetched, so a failed fetch leaves the stored count
        raised; only a fetched file raises the cached count, by one. */
    method Download(client: Client, writeOk: bool, fetchOk: bool) returns (outcome: DownloadOutcome)
      modifies this, client
      ensures client.session == old(client.session)
      ensures old(cache).None? ==>
        outcome == NothingToDownload && cache.None? && client.db == old(client.db) && client.log == old(client.log)
      ensures old(cache).Some? ==>
        var svg := old(cache).value;
        var key := (SvgBucket, svg.filePath);
        var written := if writeOk
                       then old(client.db).(svgs := WithDownloads(old(client.db.svgs), svg.id, DownloadsOf(svg) + 1))
                       else old(client.db);
        && client.log == old(client.log) + [SetDownloadsCall(svg.id, DownloadsOf(svg) + 1),
                                            DownloadCall(SvgBucket, svg.filePath)]
        && client.db == written
        && (fetchOk && key in written.files ==>
              outcome == Downloaded(DownloadName(svg.name), written.files[key])
              && cache == Some(svg.(downloads := Some(DownloadsOf(svg) + 1))))
        && (!(fetchOk && key in written.files) ==> outcome == DownloadError && cache == old(cache))
    {
      if cache.None? {
        return NothingToDownload;
      }
      var svg := cache.value;
      var _ := client.SetDownloads(svg.id, OrZero(svg.downloads) + 1, writeOk);
      var fileData := client.Download(SvgBucket, svg.filePath, fetchOk);
      if fileData.None? {
        return DownloadError;
      }
      outcome := Downloaded(DownloadName(svg.name), fileData.value);
      // onSuccess
      cache := Some(svg.(downloads := Some(OrZero(svg.downloads) + 1)));
    }
  }
}
