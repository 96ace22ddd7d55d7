/** The profile picture control: validation of the chosen image, the
    storage path it is uploaded under, and the upload-then-upsert sequence. */
module ProfileImageUpload {
  import opened Common
  import opened Strings
  import opened Tables
  import opened Backend

  /** The largest accepted image, 5 MB. */
  const MaxAvatarBytes := 5 * 1024 * 1024

  datatype ImageFile = ImageFile(name: string, mimeType: string, size: nat, content: Blob)

  datatype Validation = Ignored | InvalidFile | FileTooLarge | Valid

  /** The checks in the order the handler makes them: nothing happens
      without a file or a user; then the type must start with `image/`;
      then the size must not exceed 5 MB. */
  function Validate(file: Option<ImageFile>, user: Option<User>): (r: Validation)
    ensures r == Ignored <==> file.None? || user.None?
    ensures r == InvalidFile <==> file.Some? && user.Some? && !StartsWith(file.value.mimeType, "image/")
    ensures r == FileTooLarge <==>
      file.Some? && user.Some? && StartsWith(file.value.mimeType, "image/") && file.value.size > MaxAvatarBytes
    ensures r == Valid <==>
      file.Some? && user.Some? && StartsWith(file.value.mimeType, "image/") && file.value.size <= MaxAvatarBytes
  {
    if file.None? || user.None? then Ignored
    else if !StartsWith(file.value.mimeType, "image/") then InvalidFile
    else if file.value.size > MaxAvatarBytes then FileTooLarge
    else Valid
  }

  /** Exactly 5 MB is accepted, one byte more is not. */
  lemma SizeBoundary(name: string, content: Blob, user: User)
    ensures Validate(Some(ImageFile(name, "image/png", MaxAvatarBytes, content)), Some(user)) == Valid
    ensures Validate(Some(ImageFile(name, "image/png", MaxAvatarBytes + 1, content)), Some(user)) == FileTooLarge
  {
  }

  lemma StartsWithAppend(a: string, b: string)
    ensures StartsWith(a + b, a)
  {
    assert (a + b)[..|a|] == a;
  }

  lemma EndsWithAppend(a: string, b: string)
    ensures EndsWith(a + b, b)
  {
    assert (a + b)[|a + b| - |b|..] == b;
  }

  /** The fixed start of every avatar path of a user. */
  function AvatarPrefix(userId: Id): string {
    "avatars/" + userId + "-"
  }

  /** `avatars/${user.id}-${Date.now()}.${name.split('.').pop()}`. */
  function AvatarPath(userId: Id, now: nat, fileName: string): (r: string)
    ensures StartsWith(r, AvatarPrefix(userId))
    ensures EndsWith(r, "." + AfterLast(fileName, '.'))
  {
    var ext := LastPiece(fileName, '.');
    var stamp := NatToDecimal(now);
    PathShape(AvatarPrefix(userId), stamp, ext);
    LastPieceIsAfterLast(fileName, '.');
    AvatarPrefix(userId) + (stamp + "." + ext)
  }

  lemma PathShape(prefix: string, stamp: string, ext: string)
    ensures StartsWith(prefix + (stamp + "." + ext), prefix)
    ensures EndsWith(prefix + (stamp + "." + ext), "." + ext)
  {
    StartsWithAppend(prefix, stamp + "." + ext);
    EndsWithAppend(prefix + stamp, "." + ext);
    assert prefix + (stamp + "." + ext) == (prefix + stamp) + ("." + ext);
  }

  /** The text after the last `c` of `a + [c] + e` is `e` when `e` has no `c`. */
  lemma {:induction false} AfterLastOfAppend(a: string, c: char, e: string)
    requires c !in e
    ensures AfterLast(a + [c] + e, c) == e
  {
    if a == [] {
      assert a + [c] + e == [c] + e;
      assert ([c] + e)[1..] == e;
    } else {
      assert (a + [c] + e)[1..] == a[1..] + [c] + e;
      assert c in (a + [c] + e)[1..];
      AfterLastOfAppend(a[1..], c, e);
    }
  }

  /** The stored file keeps the chosen file's extension: the text after the
      path's last dot is the text after the name's last dot. */
  lemma ExtensionKept(userId: Id, now: nat, fileName: string)
    ensures AfterLast(AvatarPath(userId, now, fileName), '.') == AfterLast(fileName, '.')
  {
    var ext, stamp := AfterLast(fileName, '.'), NatToDecimal(now);
    LastPieceIsAfterLast(fileName, '.');
    assert AvatarPath(userId, now, fileName) == AvatarPrefix(userId) + (stamp + "." + ext);
    assert AvatarPrefix(userId) + (stamp + "." + ext) == (AvatarPrefix(userId) + stamp) + ['.'] + ext;
    AfterLastOfAppend(AvatarPrefix(userId) + stamp, '.', ext);
  }

  /** A rendered number has no dot in it. */
  lemma DecimalHasNoDot(n: nat)
    ensures '.' !in NatToDecimal(n)
  {
    var d := NatToDecimal(n);
    assert forall k :: 0 <= k < |d| ==> d[k] != '.' by {
      forall k | 0 <= k < |d|
        ensures d[k] != '.'
      {
        assert IsDigit(d[k]);
      }
    }
  }

  /** Two uploads by the same user at different instants get different
      paths, whatever the file names. */
  lemma DistinctInstantsDistinctPaths(userId: Id, t1: nat, t2: nat, name1: string, name2: string)
    requires t1 != t2
    ensures AvatarPath(userId, t1, name1) != AvatarPath(userId, t2, name2)
  {
    LastPieceIsAfterLast(name1, '.');
    LastPieceIsAfterLast(name2, '.');
    var prefix := AvatarPrefix(userId);
    var d1, d2 := NatToDecimal(t1), NatToDecimal(t2);
    var rest1 := d1 + ['.'] + AfterLast(name1, '.');
    var rest2 := d2 + ['.'] + AfterLast(name2, '.');
    var p1, p2 := AvatarPath(userId, t1, name1), AvatarPath(userId, t2, name2);
    assert p1 == prefix + rest1;
    assert p2 == prefix + rest2;
    DecimalRoundTrip(t1);
    DecimalRoundTrip(t2);
    assert d1 != d2;
    DecimalHasNoDot(t1);
    DecimalHasNoDot(t2);
    SplitAtFirst(d1, '.', AfterLast(name1, '.'));
    SplitAtFirst(d2, '.', AfterLast(name2, '.'));
    assert Split(rest1, '.')[0] == d1 && Split(rest2, '.')[0] == d2;
    assert rest1 != rest2;
    assert p1[|prefix|..] == rest1 && p2[|prefix|..] == rest2;
  }

  /** The backend after the upload attempt and, when it succeeded, the
      upsert attempt. */
  function StoredDb(db: Db, userId: Id, path: string, content: Blob, publicUrl: string,
                    uploadOk: bool, upsertOk: bool): (r: Db)
    ensures r.projects == db.projects && r.svgs == db.svgs && r.notifications == db.notifications
    ensures r.files == if uploadOk then db.files[(AvatarBucket, path) := content] else db.files
    ensures r.profiles == if uploadOk && upsertOk then WithAvatarUrl(db.profiles, userId, publicUrl) else db.profiles
  {
    var db1 := if uploadOk then db.(files := db.files[(AvatarBucket, path) := content]) else db;
    if uploadOk && upsertOk then db1.(profiles := WithAvatarUrl(db1.profiles, userId, publicUrl)) else db1
  }

  /** The calls made: the upload, then the upsert only after a successful upload. */
  function StoreCalls(userId: Id, path: string, publicUrl: string, uploadOk: bool): (r: seq<Call>)
    ensures |r| >= 1 && r[0] == UploadCall(AvatarBucket, path)
    ensures |r| == 2 <==> uploadOk
    ensures |r| == 2 ==> r[1] == UpsertProfileCall(userId, publicUrl)
  {
    [UploadCall(AvatarBucket, path)] + (if uploadOk then [UpsertProfileCall(userId, publicUrl)] else [])
  }

  /** The upload followed, only when it succeeds, by the profile upsert;
      `saved` says whether both succeeded. */
  method StoreAvatar(client: Client, userId: Id, path: string, content: Blob, publicUrl: string,
                     uploadOk: bool, upsertOk: bool)
    returns (saved: bool)
    modifies client
    ensures saved == (uploadOk && upsertOk)
    ensures client.db == StoredDb(old(client.db), userId, path, content, publicUrl, uploadOk, upsertOk)
    ensures client.log == old(client.log) + StoreCalls(userId, path, publicUrl, uploadOk)
    ensures client.session == old(client.session)
  {
    var uploaded := client.Upload(AvatarBucket, path, content, uploadOk);
    if !uploaded {
      return false;
    }
    saved := client.UpsertAvatarUrl(userId, publicUrl, upsertOk);
  }

  datatype AvatarOutcome = NoChange | Rejected(reason: Validation) | Updated(url: string) | UploadError

  class AvatarUploader {
    var uploading: bool
    var avatarUrl: Option<string>
    /** The successive values the handler gives `uploading`. */
    ghost var uploadingTrace: seq<bool>

    /** Starts idle, showing the avatar URL the page passed in. */
    constructor (currentAvatarUrl: Option<string>)
      ensures !uploading && avatarUrl == currentAvatarUrl && uploadingTrace == []
    {
      uploading := false;
      avatarUrl := currentAvatarUrl;
      uploadingTrace := [];
    }

    /** `handleFileSelect`. A file failing validation changes nothing and
        makes no call. A valid one is uploaded into the avatar bucket under
        `AvatarPath`; only if that succeeds is the profile upserted with the
        file's public URL (`publicUrl`, which the storage derives from the
        path); only if both succeed does the control show that URL. The
        control is busy during the calls and idle afterwards. */
    method SelectFile(client: Client, user: Option<User>, file: Option<ImageFile>, now: nat,
                      publicUrl: string, uploadOk: bool, upsertOk: bool)
      returns (outcome: AvatarOutcome)
      modifies this, client
      ensures Validate(file, user) == Ignored ==> outcome == NoChange
      ensures Validate(file, user) in {InvalidFile, FileTooLarge} ==> outcome == Rejected(Validate(file, user))
      ensures Validate(file, user) != Valid ==>
        && client.log == old(client.log) && client.db == old(client.db)
        && avatarUrl == old(avatarUrl) && uploading == old(uploading) && uploadingTrace == old(uploadingTrace)
      ensures Validate(file, user) == Valid ==>
        var uid := user.value.id;
        var path := AvatarPath(uid, now, file.value.name);
        && client.log == old(client.log) + StoreCalls(uid, path, publicUrl, uploadOk)
        && client.db == StoredDb(old(client.db), uid, path, file.value.content, publicUrl, uploadOk, upsertOk)
        && outcome == (if uploadOk && upsertOk then Updated(publicUrl) else UploadError)
        && avatarUrl == (if uploadOk && upsertOk then Some(publicUrl) else old(avatarUrl))
        && !uploading && uploadingTrace == old(uploadingTrace) + [true, false]
      ensures client.session == old(client.session)
    {
      var check := Validate(file, user);
      if check == Ignored {
        return NoChange;
      }
      if check != Valid {
        return Rejected(check);
      }
      outcome := UploadImage(client, user.value.id, AvatarPath(user.value.id, now, file.value.name),
                             file.value.content, publicUrl, uploadOk, upsertOk);
    }

    /** The busy part of the handler, for a file that passed validation. */
    method UploadImage(client: Client, userId: Id, path: string, content: Blob, publicUrl: string,
                       uploadOk: bool, upsertOk: bool)
      returns (outcome: AvatarOutcome)
      modifies this, client
      ensures client.log == old(client.log) + StoreCalls(userId, path, publicUrl, uploadOk)
      ensures client.db == StoredDb(old(client.db), userId, path, content, publicUrl, uploadOk, upsertOk)
      ensures client.session == old(client.session)
      ensures outcome == if uploadOk && upsertOk then Updated(publicUrl) else UploadError
      ensures avatarUrl == if uploadOk && upsertOk then Some(publicUrl) else old(avatarUrl)
      ensures !uploading && uploadingTrace == old(uploadingTrace) + [true, false]
    {
      uploading := true;
      uploadingTrace := uploadingTrace + [true];
      var saved := StoreAvatar(client, userId, path, content, publicUrl, uploadOk, upsertOk);
      if saved {
        avatarUrl := Some(publicUrl);
        outcome := Updated(publicUrl);
      } else {
        outcome := UploadError;
      }
      uploading := false;
      uploadingTrace := uploadingTrace + [false];
    }
  }
}
