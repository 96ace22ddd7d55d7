/** The hosted backend as the pages see it: the four tables and the two
    storage buckets as one value, and a client object through which every
    page call goes. Each call takes an abstract outcome `ok` (the backend
    answered without error) and appends itself to an ordered call log, so
    that the order of a page's writes and reads can be stated. */
module Backend {
  import opened Common
  import opened Tables

  type Blob = seq<bv8>

  datatype Db = Db(
    projects: seq<ProjectRow>,
    svgs: seq<SvgRow>,
    notifications: seq<Notification>,
    profiles: map<Id, Profile>,
    /** Stored objects, keyed by bucket and path. */
    files: map<(string, string), Blob>)

  const SvgBucket := "svg-files"
  const AvatarBucket := "avatars"

  /** One request to the backend, as issued. */
  datatype Call =
    | InsertProjectCall(row: ProjectRow)
    | SelectSvgsOfProjectCall(projectId: Id)
    | SelectSvgCall(svgId: Id)
    | InsertSvgsCall(rows: seq<SvgRow>)
    | InsertNotificationCall(notification: Notification)
    | UpdateProjectCall(projectId: Id, projectUpdate: ProjectUpdate)
    | UpdateSvgCall(svgId: Id, svgUpdate: SvgUpdate)
    | SetViewsCall(svgId: Id, views: int)
    | SetDownloadsCall(svgId: Id, downloads: int)
    | SetFavoritedCall(svgId: Id, favorited: bool)
    | DeleteSvgsOfProjectCall(projectId: Id)
    | DeleteProjectCall(projectId: Id)
    | DownloadCall(bucket: string, path: string)
    | UploadCall(bucket: string, path: string)
    | UpsertProfileCall(userId: Id, avatarUrl: string)
    | DeleteProfileCall(userId: Id)
    | SignOutCall

  // ---------------------------------------------------------------------
  // Row updates by id (`.update({...}).eq('id', id)`).

  function WithViews(rows: seq<SvgRow>, id: Id, v: int): seq<SvgRow> {
    seq(|rows|, i requires 0 <= i < |rows| =>
      if rows[i].id == id then rows[i].(views := Some(v)) else rows[i])
  }

  function WithDownloads(rows: seq<SvgRow>, id: Id, v: int): seq<SvgRow> {
    seq(|rows|, i requires 0 <= i < |rows| =>
      if rows[i].id == id then rows[i].(downloads := Some(v)) else rows[i])
  }

  function WithFavorited(rows: seq<SvgRow>, id: Id, v: bool): seq<SvgRow> {
    seq(|rows|, i requires 0 <= i < |rows| =>
      if rows[i].id == id then rows[i].(favorited := v) else rows[i])
  }

  function WithSvgUpdate(rows: seq<SvgRow>, id: Id, u: SvgUpdate): seq<SvgRow> {
    seq(|rows|, i requires 0 <= i < |rows| =>
      if rows[i].id == id
      then rows[i].(name := u.name, description := u.description,
                    projectId := u.projectId, tags := u.tags)
      else rows[i])
  }

  function WithProjectUpdate(rows: seq<ProjectRow>, id: Id, u: ProjectUpdate): seq<ProjectRow> {
    seq(|rows|, i requires 0 <= i < |rows| =>
      if rows[i].id == id
      then rows[i].(name := u.name, description := u.description,
                    color := u.color, isPublic := u.isPublic)
      else rows[i])
  }

  /** `.select('*').eq('id', id).single()`: the row with that id, if any. */
  function FindSvg(rows: seq<SvgRow>, id: Id): (r: Option<SvgRow>)
    ensures r.Some? ==> r.value in rows && r.value.id == id
    ensures r.None? ==> forall s :: s in rows ==> s.id != id
  {
    if rows == [] then None
    else if rows[0].id == id then Some(rows[0])
    else FindSvg(rows[1..], id)
  }

  /** The profile after an upsert of `avatar_url` for `userId`. */
  function WithAvatarUrl(profiles: map<Id, Profile>, userId: Id, url: string): map<Id, Profile> {
    var old_ := if userId in profiles then profiles[userId] else Profile(None, None);
    profiles[userId := old_.(avatarUrl := Some(url))]
  }

  /** The backend client: the backend's state, the auth session it holds,
      and the log of calls issued through it. */
  class Client {
    var db: Db
    var session: Option<Session>
    var log: seq<Call>

    constructor (initial: Db, s: Option<Session>)
      ensures db == initial && session == s && log == []
    {
      db := initial;
      session := s;
      log := [];
    }

    /** `from('projects').insert(row).select().single()`. */
    method InsertProject(row: ProjectRow, ok: bool) returns (data: Option<ProjectRow>)
      modifies this
      ensures data == if ok then Some(row) else None
      ensures db == if ok then old(db).(projects := old(db).projects + [row]) else old(db)
      ensures log == old(log) + [InsertProjectCall(row)]
      ensures session == old(session)
    {
      if ok {
        db := db.(projects := db.projects + [row]);
        data := Some(row);
      } else {
        data := None;
      }
      log := log + [InsertProjectCall(row)];
    }

    /** `from('svgs').select('*').eq('project_id', projectId)`. */
    method SelectSvgsOfProject(projectId: Id, ok: bool) returns (data: Option<seq<SvgRow>>)
      modifies this
      ensures data == if ok then Some(Where(db.svgs, ProjectOfSvg, projectId)) else None
      ensures db == old(db) && session == old(session)
      ensures log == old(log) + [SelectSvgsOfProjectCall(projectId)]
    {
      data := if ok then Some(Where(db.svgs, ProjectOfSvg, projectId)) else None;
      log := log + [SelectSvgsOfProjectCall(projectId)];
    }

    /** `from('svgs').select(...).eq('id', svgId).single()`; no row is an error. */
    method SelectSvg(svgId: Id, ok: bool) returns (data: Option<SvgRow>)
      modifies this
      ensures data == if ok then FindSvg(db.svgs, svgId) else None
      ensures db == old(db) && session == old(session)
      ensures log == old(log) + [SelectSvgCall(svgId)]
    {
      data := if ok then FindSvg(db.svgs, svgId) else None;
      log := log + [SelectSvgCall(svgId)];
    }

    /** `from('svgs').insert(rows)`. */
    method InsertSvgs(rows: seq<SvgRow>, ok: bool) returns (success: bool)
      modifies this
      ensures success == ok
      ensures db == if ok then old(db).(svgs := old(db).svgs + rows) else old(db)
      ensures log == old(log) + [InsertSvgsCall(rows)]
      ensures session == old(session)
    {
      if ok {
        db := db.(svgs := db.svgs + rows);
      }
      success := ok;
      log := log + [InsertSvgsCall(rows)];
    }

    /** `from('notifications').insert(n)`. */
    method InsertNotification(n: Notification, ok: bool) returns (success: bool)
      modifies this
      ensures success == ok
      ensures db == if ok then old(db).(notifications := old(db).notifications + [n]) else old(db)
      ensures log == old(log) + [InsertNotificationCall(n)]
      ensures session == old(session)
    {
      if ok {
        db := db.(notifications := db.notifications + [n]);
      }
      success := ok;
      log := log + [InsertNotificationCall(n)];
    }

    /** `from('projects').update(u).eq('id', projectId)`. */
    method UpdateProject(projectId: Id, u: ProjectUpdate, ok: bool) returns (success: bool)
      modifies this
      ensures success == ok
      ensures db == if ok then old(db).(projects := WithProjectUpdate(old(db).projects, projectId, u)) else old(db)
      ensures log == old(log) + [UpdateProjectCall(projectId, u)]
      ensures session == old(session)
    {
      if ok {
        db := db.(projects := WithProjectUpdate(db.projects, projectId, u));
      }
      success := ok;
      log := log + [UpdateProjectCall(projectId, u)];
    }

    /** `from('svgs').update(u).eq('id', svgId)`. */
    method UpdateSvg(svgId: Id, u: SvgUpdate, ok: bool) returns (success: bool)
      modifies this
      ensures success == ok
      ensures db == if ok then old(db).(svgs := WithSvgUpdate(old(db).svgs, svgId, u)) else old(db)
      ensures log == old(log) + [UpdateSvgCall(svgId, u)]
      ensures session == old(session)
    {
      if ok {
        db := db.(svgs := WithSvgUpdate(db.svgs, svgId, u));
      }
      success := ok;
      log := log + [UpdateSvgCall(svgId, u)];
    }

    /** `from('svgs').update({ views: v }).eq('id', svgId)`. */
    method SetViews(svgId: Id, v: int, ok: bool) returns (success: bool)
      modifies this
      ensures success == ok
      ensures db == if ok then old(db).(svgs := WithViews(old(db).svgs, svgId, v)) else old(db)
      ensures log == old(log) + [SetViewsCall(svgId, v)]
      ensures session == old(session)
    {
      if ok {
        db := db.(svgs := WithViews(db.svgs, svgId, v));
      }
      success := ok;
      log := log + [SetViewsCall(svgId, v)];
    }

    /** `from('svgs').update({ downloads: v }).eq('id', svgId)`. */
    method SetDownloads(svgId: Id, v: int, ok: bool) returns (success: bool)
      modifies this
      ensures success == ok
      ensures db == if ok then old(db).(svgs := WithDownloads(old(db).svgs, svgId, v)) else old(db)
      ensures log == old(log) + [SetDownloadsCall(svgId, v)]
      ensures session == old(session)
    {
      if ok {
        db := db.(svgs := WithDownloads(db.svgs, svgId, v));
      }
      success := ok;
      log := log + [SetDownloadsCall(svgId, v)];
    }

    /** `from('svgs').update({ favorited: v }).eq('id', svgId)`. */
    method SetFavorited(svgId: Id, v: bool, ok: bool) returns (success: bool)
      modifies this
      ensures success == ok
      ensures db == if ok then old(db).(svgs := WithFavorited(old(db).svgs, svgId, v)) else old(db)
      ensures log == old(log) + [SetFavoritedCall(svgId, v)]
      ensures session == old(session)
    {
      if ok {
        db := db.(svgs := WithFavorited(db.svgs, svgId, v));
      }
      success := ok;
      log := log + [SetFavoritedCall(svgId, v)];
    }

    /** `from('svgs').delete().eq('project_id', projectId)`. */
    method DeleteSvgsOfProject(projectId: Id, ok: bool) returns (success: bool)
      modifies this
      ensures success == ok
      ensures db == if ok then old(db).(svgs := WhereNot(old(db).svgs, ProjectOfSvg, projectId)) else old(db)
      ensures log == old(log) + [DeleteSvgsOfProjectCall(projectId)]
      ensures session == old(session)
    {
      if ok {
        db := db.(svgs := WhereNot(db.svgs, ProjectOfSvg, projectId));
      }
      success := ok;
      log := log + [DeleteSvgsOfProjectCall(projectId)];
    }

    /** `from('projects').delete().eq('id', projectId)`. */
    method DeleteProject(projectId: Id, ok: bool) returns (success: bool)
      modifies this
      ensures success == ok
      ensures db == if ok then old(db).(projects := WhereNot(old(db).projects, IdOfProject, projectId)) else old(db)
      ensures log == old(log) + [DeleteProjectCall(projectId)]
      ensures session == old(session)
    {
      if ok {
        db := db.(projects := WhereNot(db.projects, IdOfProject, projectId));
      }
      success := ok;
      log := log + [DeleteProjectCall(projectId)];
    }

    /** `storage.from(bucket).download(path)`: the stored object, if any. */
    method Download(bucket: string, path: string, ok: bool) returns (data: Option<Blob>)
      modifies this
      ensures data == if ok && (bucket, path) in db.files then Some(db.files[(bucket, path)]) else None
      ensures db == old(db) && session == old(session)
      ensures log == old(log) + [DownloadCall(bucket, path)]
    {
      data := if ok && (bucket, path) in db.files then Some(db.files[(bucket, path)]) else None;
      log := log + [DownloadCall(bucket, path)];
    }

    /** `storage.from(bucket).upload(path, content)`. */
    method Upload(bucket: string, path: string, content: Blob, ok: bool) returns (success: bool)
      modifies this
      ensures success == ok
      ensures db == if ok then old(db).(files := old(db).files[(bucket, path) := content]) else old(db)
      ensures log == old(log) + [UploadCall(bucket, path)]
      ensures session == old(session)
    {
      if ok {
        db := db.(files := db.files[(bucket, path) := content]);
      }
      success := ok;
      log := log + [UploadCall(bucket, path)];
    }

    /** `from('profiles').upsert({ user_id, avatar_url })`. */
    method UpsertAvatarUrl(userId: Id, url: string, ok: bool) returns (success: bool)
      modifies this
      ensures success == ok
      ensures db == if ok then old(db).(profiles := WithAvatarUrl(old(db).profiles, userId, url)) else old(db)
      ensures log == old(log) + [UpsertProfileCall(userId, url)]
      ensures session == old(session)
    {
      if ok {
        db := db.(profiles := WithAvatarUrl(db.profiles, userId, url));
      }
      success := ok;
      log := log + [UpsertProfileCall(userId, url)];
    }

    /** `from('profiles').delete().eq('user_id', userId)`. */
    method DeleteProfile(userId: Id, ok: bool) returns (success: bool)
      modifies this
      ensures success == ok
      ensures db == if ok then old(db).(profiles := old(db).profiles - {userId}) else old(db)
      ensures log == old(log) + [DeleteProfileCall(userId)]
      ensures session == old(session)
    {
      if ok {
        db := db.(profiles := db.profiles - {userId});
      }
      success := ok;
      log := log + [DeleteProfileCall(userId)];
    }

    /** `auth.signOut()`: the session is dropped. */
    method SignOut()
      modifies this
      ensures session == None && db == old(db)
      ensures log == old(log) + [SignOutCall]
    {
      session := None;
      log := log + [SignOutCall];
    }
  }
}
