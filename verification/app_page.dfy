/**
 * The profile view of `src/app/page.tsx`: its regular-expression user key
 * with the `'guest'` fallback, and the `bannerUrl` / `isLoadingBanner` state
 * that `loadBanner` and `handleBannerChange` update. Fetch responses, thrown
 * errors and `Date.now()` come in as parameters.
 */
module AppPage {
  import opened Common
  import Storage
  import CacheBuster

  // ---------------------------------------------------------------- user key

  /** `s.replace(/[^a-zA-Z0-9]/g, '_')`. */
  function ReplaceNonAlnum(s: string): (r: string)
    ensures |r| == |s|
    ensures forall i :: 0 <= i < |s| ==> r[i] == (if IsAlnum(s[i]) then s[i] else '_')
  {
    if s == [] then [] else [if IsAlnum(s[0]) then s[0] else '_'] + ReplaceNonAlnum(s[1..])
  }

  /** The key holds letters, digits and `_` only. */
  lemma ReplaceNonAlnumCharacters(s: string)
    ensures forall i :: 0 <= i < |s| ==> IsAlnum(ReplaceNonAlnum(s)[i]) || ReplaceNonAlnum(s)[i] == '_'
  {
  }

  /** Alphanumeric strings are fixed points. */
  lemma ReplaceNonAlnumFixesAlnum(s: string)
    requires forall i :: 0 <= i < |s| ==> IsAlnum(s[i])
    ensures ReplaceNonAlnum(s) == s
  {
  }

  /** Sanitising twice is sanitising once. */
  lemma ReplaceNonAlnumIdempotent(s: string)
    ensures ReplaceNonAlnum(ReplaceNonAlnum(s)) == ReplaceNonAlnum(s)
  {
  }

  /** `email?.replace(/[^a-zA-Z0-9]/g, '_') || 'guest'`. */
  function SanitizeEmail(email: Option<string>): (userId: string)
    ensures userId != ""
    ensures !Truthy(email) ==> userId == "guest"
    ensures Truthy(email) ==> userId == ReplaceNonAlnum(email.value)
  {
    match email
    case None => "guest"
    case Some(e) =>
      var r := ReplaceNonAlnum(e);
      if r == "" then "guest" else r
  }

  /** The key is not injective: `a.b@c` and `a_b_c` share one. */
  lemma SanitizeEmailCollides()
    ensures SanitizeEmail(Some("a.b@c")) == SanitizeEmail(Some("a_b_c")) == "a_b_c"
  {
  }

  /** `session?.user?.email?.replace(/[^a-zA-Z0-9]/g, '_')` in `Navbar`: the same key without the fallback. */
  function NavbarKey(email: Option<string>): (key: Option<string>)
    ensures key.None? <==> email.None?
    ensures Truthy(email) ==> key == Some(SanitizeEmail(email))
    ensures email == Some("") ==> key == Some("")
  {
    match email
    case None => None
    case Some(e) => Some(ReplaceNonAlnum(e))
  }

  /** Non-alphanumerics of `s` are `.` and `@` only. */
  predicate OnlyDotsAndAts(s: string)
  {
    forall i :: 0 <= i < |s| ==> IsAlnum(s[i]) || s[i] == '.' || s[i] == '@'
  }

  /** On emails whose only punctuation is `.` and at most one `@`, the two sanitisers agree. */
  lemma SanitizersAgree(email: string)
    requires OnlyDotsAndAts(email) && AtMostOnce(email, '@')
    ensures Storage.SanitizeEmail(email) == ReplaceNonAlnum(email)
  {
    var a, b := Storage.SanitizeEmail(email), ReplaceNonAlnum(email);
    forall i | 0 <= i < |email|
      ensures a[i] == b[i]
    {
      if email[i] == '@' {
        assert '@' !in email[..i] by {
          forall k | 0 <= k < i
            ensures email[..i][k] != '@'
          {
            assert email[..i][k] == email[k];
          }
        }
      }
    }
  }

  /** A second `@` is kept by the storage key and replaced by this one. */
  lemma SanitizersDisagreeOnSecondAt()
    ensures Storage.SanitizeEmail("a@b@c") == "a_b@c" && ReplaceNonAlnum("a@b@c") == "a_b_c"
  {
    var s := "a@b@c";
    var key := Storage.SanitizeEmail(s);
    assert s[..1] == "a" && s[..3][1] == '@';
    assert key[0] == 'a' && key[1] == '_' && key[2] == 'b' && key[3] == '@' && key[4] == 'c';
  }

  /** Punctuation other than `.` and `@` is kept by the storage key and replaced by this one. */
  lemma SanitizersDisagreeOnDash()
    ensures Storage.SanitizeEmail("a-b@c") == "a-b_c" && ReplaceNonAlnum("a-b@c") == "a_b_c"
  {
    var s := "a-b@c";
    var key := Storage.SanitizeEmail(s);
    assert s[..3] == "a-b";
    assert key[0] == 'a' && key[1] == '-' && key[2] == 'b' && key[3] == '_' && key[4] == 'c';
  }

  // ---------------------------------------------------------------- banner state

  const DefaultBanner := "/images/default-banner.jpg"

  /** The outcome of `fetch(...)` then `res.json()`: a thrown error, or a JSON body whose `url` may be absent. */
  datatype FetchOutcome = Threw | Json(url: Option<string>)

  /** The form data posted to `/api/upload-banner`. */
  datatype BannerForm = BannerForm(file: File, user: string)

  /** The URL `loadBanner` fetches. */
  function BannerQuery(userId: string): (q: string)
    ensures StartsWith(q, "/api/banner?user=") && q[|"/api/banner?user="|..] == userId
  {
    "/api/banner?user=" + userId
  }

  /** The banner a successful fetch shows: the `url` of the body when it is truthy, else the fallback. */
  function LoadedBanner(outcome: FetchOutcome): (url: string)
    ensures url != ""
    ensures outcome.Json? && Truthy(outcome.url) ==> url == outcome.url.value
    ensures !(outcome.Json? && Truthy(outcome.url)) ==> url == DefaultBanner
  {
    if outcome.Json? && Truthy(outcome.url) then outcome.url.value else DefaultBanner
  }

  class ProfileView {
    const userId: string
    var bannerUrl: string
    var isLoadingBanner: bool

    /** The first render: `useState('')`, `useState(true)`, the key from the session email. */
    constructor (email: Option<string>)
      ensures userId == SanitizeEmail(email) && userId != ""
      ensures bannerUrl == "" && isLoadingBanner
    {
      userId := SanitizeEmail(email);
      bannerUrl := "";
      isLoadingBanner := true;
    }

    /**
     * `loadBanner`: returns the URL it requests (None when the `!userId`
     * guard returns early, which the constructor rules out).
     */
    method LoadBanner(outcome: FetchOutcome) returns (query: Option<string>)
      modifies this
      ensures userId == "" ==> query == None && bannerUrl == old(bannerUrl) && isLoadingBanner == old(isLoadingBanner)
      ensures userId != "" ==> query == Some(BannerQuery(userId))
      ensures userId != "" ==> bannerUrl == LoadedBanner(outcome) && !isLoadingBanner
    {
      if userId == "" {
        return None;
      }
      isLoadingBanner := true;
      query := Some(BannerQuery(userId));
      match outcome {
        case Json(url) =>
          if Truthy(url) {
            bannerUrl := url.value;
          } else {
            bannerUrl := DefaultBanner;
          }
        case Threw =>
          bannerUrl := DefaultBanner;
      }
      isLoadingBanner := false;
    }

    /**
     * `handleBannerChange`: posts the first selected file with the user key;
     * returns the form it posts (None when there is no file or no key). A
     * truthy `url` in the reply becomes the banner with `?t=<now>` appended;
     * anything else is caught and leaves the banner as it was.
     */
    method HandleBannerChange(file: Option<File>, outcome: FetchOutcome, now: nat) returns (form: Option<BannerForm>)
      modifies this`bannerUrl
      ensures file.None? || userId == "" ==> form == None && bannerUrl == old(bannerUrl)
      ensures file.Some? && userId != "" ==> form == Some(BannerForm(file.value, userId))
      ensures file.Some? && userId != "" && outcome.Json? && Truthy(outcome.url) ==>
        bannerUrl == CacheBuster.WithCacheBuster(outcome.url.value, now)
        && CacheBuster.SplitCacheBuster(bannerUrl) == Some((outcome.url.value, now))
      ensures !(outcome.Json? && Truthy(outcome.url)) ==> bannerUrl == old(bannerUrl)
    {
      if file.None? || userId == "" {
        return None;
      }
      form := Some(BannerForm(file.value, userId));
      if outcome.Json? && Truthy(outcome.url) {
        bannerUrl := CacheBuster.WithCacheBuster(outcome.url.value, now);
        CacheBuster.SplitWithCacheBuster(outcome.url.value, now);
      }
    }
  }
}
