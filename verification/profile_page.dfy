/**
 * The profile view of `src/app/profile/page.tsx`: the raw-email user id, the
 * single flat object `banners/<userId>.jpg` it uploads to, and the
 * `bannerUrl` / `isLoadingBanner` state of `loadBanner` and
 * `handleBannerChange`. The storage replies and `Date.now()` are parameters.
 */
module ProfilePage {
  import opened Common
  import Storage
  import CacheBuster

  /** The banner `loadBanner` shows for every user. */
  const FixedBannerUrl := "https://ilupxplqymcsncxirwiz.supabase.co/storage/v1/object/public/profile-assets/Fernandez_Tony_06.jpeg"

  const Bucket := "profile-assets"

  /** `session?.user?.email || 'guest'`: the email verbatim, not sanitised. */
  function UserId(email: Option<string>): (userId: string)
    ensures userId != ""
    ensures Truthy(email) ==> userId == email.value
    ensures !Truthy(email) ==> userId == "guest"
  {
    if Truthy(email) then email.value else "guest"
  }

  /** `banners/${userId}.jpg`: one object per user, whatever file is chosen. */
  function BannerPath(userId: string): (path: string)
    ensures StartsWith(path, "banners/")
    ensures |path| == |"banners/"| + |userId| + |".jpg"|
    ensures path[|"banners/"|..|path| - |".jpg"|] == userId
    ensures path[|path| - |".jpg"|..] == ".jpg"
  {
    "banners/" + userId + ".jpg"
  }

  /** Different user ids never share a banner object. */
  lemma BannerPathInjective(u1: string, u2: string)
    ensures BannerPath(u1) == BannerPath(u2) ==> u1 == u2
  {
  }

  /**
   * For an id without `/`, the flat object is never one of the
   * `banners/<key>/<name>` objects that the storage helpers upload and list.
   */
  lemma BannerPathOutsideStorageScheme(userId: string, key: string, name: string)
    requires '/' !in userId
    ensures BannerPath(userId) != Storage.ObjectPath(Storage.Banner, key, name)
  {
    var flat, nested := BannerPath(userId), Storage.ObjectPath(Storage.Banner, key, name);
    var slash := |"banners/"| + |key|;
    assert nested == "banners/" + key + "/" + name;
    assert nested[slash] == '/';
    if slash < |"banners/"| + |userId| {
      assert flat[slash] == userId[slash - |"banners/"|];
    } else if slash < |flat| {
      assert flat[slash] == ".jpg"[slash - |"banners/"| - |userId|];
    }
  }

  /** The arguments of `supabase.storage.from(bucket).upload(path, file, options)`. */
  datatype StorageUpload = StorageUpload(bucket: string, path: string, file: File, cacheControl: string, upsert: bool)

  /** The `error` field of the upload reply. */
  datatype UploadOutcome = UploadError(message: string) | UploadOk

  class ProfileView {
    const userId: string
    var bannerUrl: string
    var isLoadingBanner: bool

    /** The first render: `useState('')`, `useState(true)`, the id from the session email. */
    constructor (email: Option<string>)
      ensures userId == UserId(email)
      ensures bannerUrl == "" && isLoadingBanner
    {
      userId := UserId(email);
      bannerUrl := "";
      isLoadingBanner := true;
    }

    /** `loadBanner`: the hard-coded URL, whoever the user is; loading ends. */
    method LoadBanner()
      modifies this
      ensures bannerUrl == FixedBannerUrl && !isLoadingBanner
    {
      isLoadingBanner := true;
      bannerUrl := FixedBannerUrl;
      isLoadingBanner := false;
    }

    /**
     * `handleBannerChange`: returns the upload it issues (None without a
     * selected file). After a successful upload it asks `getPublicUrl` for
     * the same path it uploaded to; `getPublicUrl(path)` is the reply's
     * `data?.publicUrl`.
     */
    method HandleBannerChange(file: Option<File>, outcome: UploadOutcome,
                              getPublicUrl: string -> Option<string>, now: nat)
      returns (upload: Option<StorageUpload>)
      modifies this`bannerUrl
      ensures file.None? ==> upload == None && bannerUrl == old(bannerUrl)
      ensures file.Some? ==> upload == Some(StorageUpload(Bucket, BannerPath(userId), file.value, "3600", true))
      ensures file.Some? && outcome.UploadOk? && Truthy(getPublicUrl(BannerPath(userId))) ==>
        var url := getPublicUrl(BannerPath(userId)).value;
        bannerUrl == CacheBuster.WithCacheBuster(url, now)
        && CacheBuster.SplitCacheBuster(bannerUrl) == Some((url, now))
      ensures outcome.UploadError? || !Truthy(getPublicUrl(BannerPath(userId))) ==> bannerUrl == old(bannerUrl)
    {
      if file.None? {
        return None;
      }
      var filePath := BannerPath(userId);
      upload := Some(StorageUpload(Bucket, filePath, file.value, "3600", true));
      if outcome.UploadOk? {
        var publicUrl := getPublicUrl(filePath);
        if Truthy(publicUrl) {
          bannerUrl := CacheBuster.WithCacheBuster(publicUrl.value, now);
          CacheBuster.SplitWithCacheBuster(publicUrl.value, now);
        }
      }
    }
  }
}
