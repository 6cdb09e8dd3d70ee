/**
 * The per-user asset store of `src/lib/storage.ts`: the user key derived from
 * the session email, the `<type>s/<key>/<name>` object path scheme, and the
 * guards, provider calls and error rewriting of `uploadImage` and
 * `getImageUrl`. The session and every provider reply are parameters; the
 * provider's `getPublicUrl` is a function parameter.
 */
module Storage {
  import opened Common

  datatype ImageType = Banner | ProfilePic

  /** The `ImageType` string literal. */
  function TypeName(t: ImageType): string
  {
    match t
    case Banner => "banner"
    case ProfilePic => "profile-pic"
  }

  /** `session.user` as far as these functions read it; None when there is no session or no user. */
  datatype SessionUser = SessionUser(email: Option<string>, supabaseToken: Option<string>)

  /** A thrown error: one built here, or the provider's own error object rethrown. */
  datatype Error = AppError(message: string) | ProviderError(message: string)

  datatype Result<+T> = Ok(value: T) | Err(error: Error)

  const LoginToUploadMessage := "You must be logged in to upload images"
  const LoginToViewMessage := "You must be logged in to view images"
  const NoTokenMessage := "No Supabase token found in session"
  const PermissionDeniedMessage := "Permission denied. Please check your authentication status."
  const NoPathMessage := "Upload successful but no path returned"

  // ---------------------------------------------------------------- user key

  /** `s.replace(from, to)` with a one-character string pattern: only the first occurrence. */
  function ReplaceFirst(s: string, from: char, to: char): (r: string)
    ensures |r| == |s|
    ensures forall i :: 0 <= i < |s| ==>
      r[i] == (if s[i] == from && from !in s[..i] then to else s[i])
  {
    if s == [] then []
    else if s[0] == from then [to] + s[1..]
    else
      var rest := ReplaceFirst(s[1..], from, to);
      assert forall i :: 1 <= i < |s| ==> s[..i] == [s[0]] + s[1..][..i - 1];
      [s[0]] + rest
  }

  /** `s.replace(/x/g, to)`: every occurrence. */
  function ReplaceAll(s: string, from: char, to: char): (r: string)
    ensures |r| == |s|
    ensures forall i :: 0 <= i < |s| ==> r[i] == (if s[i] == from then to else s[i])
  {
    if s == [] then [] else [if s[0] == from then to else s[0]] + ReplaceAll(s[1..], from, to)
  }

  /** What the storage key holds at position `i`: `_` for a `.` and for the first `@`. */
  function SanitizedChar(email: string, i: nat): char
    requires i < |email|
  {
    if email[i] == '.' || (email[i] == '@' && '@' !in email[..i]) then '_' else email[i]
  }

  /**
   * The storage key: the first `@` and every `.` become `_`; every other
   * character, a later `@` included, is kept.
   */
  function SanitizeEmail(email: string): (key: string)
    ensures |key| == |email|
    ensures forall i :: 0 <= i < |email| ==> key[i] == SanitizedChar(email, i)
    ensures '.' !in key
  {
    ReplaceAll(ReplaceFirst(email, '@', '_'), '.', '_')
  }

  /** With at most one `@` the key holds neither `@` nor `.`, and sanitising it again changes nothing. */
  lemma SanitizeEmailIdempotent(email: string)
    requires AtMostOnce(email, '@')
    ensures '@' !in SanitizeEmail(email)
    ensures SanitizeEmail(SanitizeEmail(email)) == SanitizeEmail(email)
  {
    var key := SanitizeEmail(email);
    assert forall i :: 0 <= i < |key| ==> key[i] != '@';
    assert forall i :: 0 <= i < |key| ==> SanitizedChar(key, i) == key[i];
  }

  /** Between the first `@` at `first` and the next at `second`, the key holds no `@`. */
  lemma NoAtBeforeSecond(email: string, first: nat, second: nat)
    requires first < second < |email|
    requires email[first] == '@' && '@' !in email[..first]
    requires '@' !in email[first + 1..second]
    ensures '@' !in SanitizeEmail(email)[..second]
  {
    var key := SanitizeEmail(email);
    forall k | 0 <= k < second
      ensures key[k] != '@'
    {
      if k < first {
        assert email[..first][k] == email[k];
      } else if k > first {
        assert email[first + 1..second][k - first - 1] == email[k];
      }
    }
  }

  /** The positions of the first and the second `@` of an email with two or more. */
  lemma FirstTwoAts(email: string) returns (first: nat, second: nat)
    requires !AtMostOnce(email, '@')
    ensures first < second < |email| && email[first] == '@' && email[second] == '@'
    ensures '@' !in email[..first] && '@' !in email[first + 1..second]
  {
    first := FirstIndex(email, '@');
    var i, j :| 0 <= i < j < |email| && email[i] == '@' && email[j] == '@';
    var tail := email[first + 1..];
    assert tail[j - first - 1] == '@';
    second := first + 1 + FirstIndex(tail, '@');
    assert email[first + 1..second] == tail[..second - first - 1];
  }

  /** With two or more `@`, a second application replaces the next `@`: not idempotent. */
  lemma SanitizeEmailNotIdempotent(email: string)
    requires !AtMostOnce(email, '@')
    ensures SanitizeEmail(SanitizeEmail(email)) != SanitizeEmail(email)
  {
    var key := SanitizeEmail(email);
    var first, second := FirstTwoAts(email);
    NoAtBeforeSecond(email, first, second);
    assert email[..second][first] == '@';
    assert key[second] == SanitizedChar(email, second) == '@';
    assert SanitizeEmail(key)[second] == SanitizedChar(key, second) == '_';
  }

  /** `a@b` and `a_b` share one key (and so one storage directory). */
  lemma SanitizeEmailCollides()
    ensures SanitizeEmail("a@b") == SanitizeEmail("a_b") == "a_b"
  {
    assert "a@b"[..1] == "a";
  }

  // ---------------------------------------------------------------- paths

  /** The listing prefix `<type>s/<key>`. */
  function Directory(t: ImageType, key: string): (dir: string)
    ensures StartsWith(dir, TypeName(t) + "s/") && dir[|TypeName(t)| + 2..] == key
  {
    TypeName(t) + "s/" + key
  }

  /** The object path `<type>s/<key>/<name>`. */
  function ObjectPath(t: ImageType, key: string, name: string): (path: string)
    ensures StartsWith(path, Directory(t, key) + "/") && path[|Directory(t, key)| + 1..] == name
  {
    Directory(t, key) + "/" + name
  }

  /** Banners live under `banners/`, profile pictures under `profile-pics/`. */
  lemma ObjectPathTopLevel(t: ImageType, key: string, name: string)
    ensures t == Banner ==> StartsWith(ObjectPath(t, key, name), "banners/")
    ensures t == ProfilePic ==> StartsWith(ObjectPath(t, key, name), "profile-pics/")
  {
    var path := ObjectPath(t, key, name);
    assert path == TypeName(t) + "s/" + (key + "/" + name);
  }

  /** A `/` that cannot occur in either first part splits both strings alike. */
  lemma SplitAtSlash(k1: string, n1: string, k2: string, n2: string)
    requires '/' !in k1 && '/' !in k2
    requires k1 + "/" + n1 == k2 + "/" + n2
    ensures k1 == k2 && n1 == n2
  {
    var rest := k1 + "/" + n1;
    assert rest[|k1|] == '/' && rest[|k2|] == '/';
    assert k1 == rest[..|k1|] == k2;
    assert n1 == rest[|k1| + 1..] == n2;
  }

  /** An object path is its type's top-level prefix followed by `<key>/<name>`. */
  lemma ObjectPathParts(t: ImageType, key: string, name: string)
    ensures ObjectPath(t, key, name) == (TypeName(t) + "s/") + (key + "/" + name)
  {
  }

  /** Keys without `/` give every (type, key, name) its own path. */
  lemma ObjectPathInjective(t1: ImageType, k1: string, n1: string, t2: ImageType, k2: string, n2: string)
    requires '/' !in k1 && '/' !in k2
    requires ObjectPath(t1, k1, n1) == ObjectPath(t2, k2, n2)
    ensures t1 == t2 && k1 == k2 && n1 == n2
  {
    var p := ObjectPath(t1, k1, n1);
    var pre1, pre2 := TypeName(t1) + "s/", TypeName(t2) + "s/";
    ObjectPathParts(t1, k1, n1);
    ObjectPathParts(t2, k2, n2);
    assert p[0] == pre1[0] == pre2[0];
    assert p[|pre1|..] == k1 + "/" + n1 && p[|pre1|..] == k2 + "/" + n2;
    SplitAtSlash(k1, n1, k2, n2);
  }

  // ---------------------------------------------------------------- session guards

  /** The two guards, email first and token second; the email on success. */
  function CheckSession(user: Option<SessionUser>, loginMessage: string): (r: Result<string>)
    ensures r.Ok? <==> user.Some? && Truthy(user.value.email) && Truthy(user.value.supabaseToken)
    ensures r.Ok? ==> r.value == user.value.email.value
    ensures !(user.Some? && Truthy(user.value.email)) ==> r == Err(AppError(loginMessage))
    ensures user.Some? && Truthy(user.value.email) && !Truthy(user.value.supabaseToken) ==>
      r == Err(AppError(NoTokenMessage))
  {
    if user.None? || !Truthy(user.value.email) then Err(AppError(loginMessage))
    else if !Truthy(user.value.supabaseToken) then Err(AppError(NoTokenMessage))
    else Ok(user.value.email.value)
  }

  /** A provider error mentioning a permission denial becomes the fixed message; any other is rethrown as is. */
  function RewriteProviderError(message: string): (e: Error)
    ensures e.AppError? <==> Includes(message, "Permission denied")
    ensures e.AppError? ==> e.message == PermissionDeniedMessage
    ensures e.ProviderError? ==> e.message == message
  {
    if Includes(message, "Permission denied") then AppError(PermissionDeniedMessage)
    else ProviderError(message)
  }

  // ---------------------------------------------------------------- uploadImage

  /** The arguments of the provider's `upload` call. */
  datatype UploadRequest = UploadRequest(path: string, file: File, upsert: bool, contentType: string)

  /** What the provider's `upload` answers: an error, or data whose `path` may be missing. */
  datatype UploadReply = UploadFailed(message: string) | Uploaded(path: Option<string>)

  /** The part of `uploadImage` before any storage call: the guards and the request. */
  function PrepareUpload(user: Option<SessionUser>, file: File, t: ImageType): (r: Result<UploadRequest>)
    ensures r.Err? <==> CheckSession(user, LoginToUploadMessage).Err?
    ensures r.Err? ==> r.error == CheckSession(user, LoginToUploadMessage).error
    ensures r.Ok? ==> r.value == UploadRequest(
      ObjectPath(t, SanitizeEmail(user.value.email.value), file.name), file, true, file.contentType)
  {
    match CheckSession(user, LoginToUploadMessage)
    case Err(e) => Err(e)
    case Ok(email) => Ok(UploadRequest(ObjectPath(t, SanitizeEmail(email), file.name), file, true, file.contentType))
  }

  /**
   * `uploadImage(file, userId, type)`. `reply` is the provider's answer to the
   * request of `PrepareUpload`, `publicUrl` its `getPublicUrl`.
   */
  function UploadImage(user: Option<SessionUser>, file: File, userId: string, t: ImageType,
                       reply: UploadReply, publicUrl: string -> string): (r: Result<string>)
    ensures PrepareUpload(user, file, t).Err? ==> r == Err(PrepareUpload(user, file, t).error)
    ensures PrepareUpload(user, file, t).Ok? && reply.UploadFailed? ==>
      r == Err(RewriteProviderError(reply.message))
    ensures PrepareUpload(user, file, t).Ok? && reply.Uploaded? && !Truthy(reply.path) ==>
      r == Err(AppError(NoPathMessage))
    ensures r.Ok? <==> PrepareUpload(user, file, t).Ok? && reply.Uploaded? && Truthy(reply.path)
    ensures r.Ok? ==> r.value == publicUrl(reply.path.value)
  {
    match PrepareUpload(user, file, t)
    case Err(e) => Err(e)
    case Ok(_) =>
      match reply
      case UploadFailed(message) => Err(RewriteProviderError(message))
      case Uploaded(path) =>
        if !Truthy(path) then Err(AppError(NoPathMessage)) else Ok(publicUrl(path.value))
  }

  /** The `userId` argument plays no part. */
  lemma UploadImageIgnoresUserId(user: Option<SessionUser>, file: File, id1: string, id2: string,
                                 t: ImageType, reply: UploadReply, publicUrl: string -> string)
    ensures UploadImage(user, file, id1, t, reply, publicUrl) == UploadImage(user, file, id2, t, reply, publicUrl)
  {
  }

  /** A failed session check decides the outcome before the provider is asked: its reply is irrelevant. */
  lemma UploadImageFailsBeforeStorage(user: Option<SessionUser>, file: File, userId: string, t: ImageType,
                                      r1: UploadReply, r2: UploadReply, publicUrl: string -> string)
    requires !(user.Some? && Truthy(user.value.email) && Truthy(user.value.supabaseToken))
    ensures UploadImage(user, file, userId, t, r1, publicUrl) == UploadImage(user, file, userId, t, r2, publicUrl)
    ensures UploadImage(user, file, userId, t, r1, publicUrl).Err?
  {
  }

  // ---------------------------------------------------------------- getImageUrl

  /** One entry of a listing. */
  datatype FileObject = FileObject(name: string)

  /** What the provider's `list` answers: an error, or data that may be null. */
  datatype ListReply = ListFailed(message: string) | Listed(files: Option<seq<FileObject>>)

  /** The part of `getImageUrl` before any storage call: the guards and the listing prefix. */
  function PrepareList(user: Option<SessionUser>, t: ImageType): (r: Result<string>)
    ensures r.Err? <==> CheckSession(user, LoginToViewMessage).Err?
    ensures r.Err? ==> r.error == CheckSession(user, LoginToViewMessage).error
    ensures r.Ok? ==> r.value == Directory(t, SanitizeEmail(user.value.email.value))
  {
    match CheckSession(user, LoginToViewMessage)
    case Err(e) => Err(e)
    case Ok(email) => Ok(Directory(t, SanitizeEmail(email)))
  }

  /**
   * `getImageUrl(userId, type)`: Ok(None) stands for the `null` returned when
   * nothing is listed; otherwise the public URL of the LAST listed entry.
   */
  function GetImageUrl(user: Option<SessionUser>, userId: string, t: ImageType,
                       reply: ListReply, publicUrl: string -> string): (r: Result<Option<string>>)
    ensures PrepareList(user, t).Err? ==> r == Err(PrepareList(user, t).error)
    ensures PrepareList(user, t).Ok? && reply.ListFailed? ==> r == Err(RewriteProviderError(reply.message))
    ensures r == Ok(None) <==>
      PrepareList(user, t).Ok? && reply.Listed? && (reply.files.None? || reply.files.value == [])
    ensures r.Ok? <==> PrepareList(user, t).Ok? && reply.Listed?
    ensures PrepareList(user, t).Ok? && reply.Listed? && reply.files.Some? && reply.files.value != [] ==>
      var files := reply.files.value;
      r == Ok(Some(publicUrl(PrepareList(user, t).value + "/" + files[|files| - 1].name)))
    ensures r.Ok? && r.value.Some? ==>
      && PrepareList(user, t).Ok? && reply.Listed? && reply.files.Some? && reply.files.value != []
      && var files := reply.files.value;
         r.value.value == publicUrl(PrepareList(user, t).value + "/" + files[|files| - 1].name)
  {
    match PrepareList(user, t)
    case Err(e) => Err(e)
    case Ok(dir) =>
      match reply
      case ListFailed(message) => Err(RewriteProviderError(message))
      case Listed(files) =>
        if files.None? || |files.value| == 0 then Ok(None)
        else
          var latest := files.value[|files.value| - 1];
          Ok(Some(publicUrl(dir + "/" + latest.name)))
  }

  /** Every path a user uploads to lies in the directory `getImageUrl` lists for that user. */
  lemma UploadPathInListedDirectory(user: Option<SessionUser>, file: File, t: ImageType)
    requires PrepareUpload(user, file, t).Ok?
    ensures PrepareList(user, t).Ok?
    ensures PrepareUpload(user, file, t).value.path == PrepareList(user, t).value + "/" + file.name
  {
  }

  /**
   * Round trip: when the provider reports back the requested path and the
   * listing ends with the uploaded file, `getImageUrl` yields the URL that
   * `uploadImage` returned.
   */
  lemma UploadThenGetImageUrl(user: Option<SessionUser>, file: File, userId: string, t: ImageType,
                              files: seq<FileObject>, publicUrl: string -> string)
    requires PrepareUpload(user, file, t).Ok?
    requires files != [] && files[|files| - 1].name == file.name
    ensures var uploaded := Uploaded(Some(PrepareUpload(user, file, t).value.path));
      && UploadImage(user, file, userId, t, uploaded, publicUrl).Ok?
      && GetImageUrl(user, userId, t, Listed(Some(files)), publicUrl)
         == Ok(Some(UploadImage(user, file, userId, t, uploaded, publicUrl).value))
  {
    var path := PrepareUpload(user, file, t).value.path;
    assert path != "" by {
      assert |path| >= |TypeName(t)| + 3;
    }
  }
}
