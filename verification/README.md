# Seedling profile assets — a Dafny model

This project models the small amount of exact logic in the Seedling / TreeHouse
web application (a Next.js site over Supabase storage and NextAuth):

- **Storage helpers** (`src/lib/storage.ts`). The user key is derived from the
  session email by replacing the first `@` and every `.` with `_`. Objects live
  at `<type>s/<key>/<file name>`. `uploadImage` and `getImageUrl` first check
  the session (email first, then the Supabase token). They then issue one
  provider call. A provider error that mentions `Permission denied` is replaced
  by a fixed message; any other provider error is rethrown. `getImageUrl`
  returns the public URL of the last listed entry, or `null` when nothing is
  listed. Both are pure functions (`Storage.UploadImage`, `Storage.GetImageUrl`).
  The session record, the provider's replies and its `getPublicUrl` come in as
  parameters.
- **Profile view in `src/app/page.tsx`**. Its user key replaces every character
  outside `[A-Za-z0-9]` with `_`, and falls back to `guest`. `loadBanner`
  updates `bannerUrl` and `isLoadingBanner`; `handleBannerChange` updates
  `bannerUrl` only. Both are methods of the class `AppPage.ProfileView`, which takes the fetch outcome
  and the clock reading as parameters.
- **Profile view in `src/app/profile/page.tsx`**. Its user id is the raw
  email, and it uploads to the one flat object `banners/<userId>.jpg`. Its
  `loadBanner` always shows a hard-coded URL. Its upload handler is the class
  `ProfilePage.ProfileView`.
- **Card aspect classes** (`src/components/SeedCard.tsx`). `getAspectStyle`
  maps the four card kinds to four distinct CSS classes, and maps anything
  else to `aspect-square`.

Both upload handlers append a cache-busting `?t=<timestamp>` to the new URL.
`CacheBuster.SplitCacheBuster` reads that suffix back, and
`CacheBuster.SplitWithCacheBuster` proves that doing so recovers the
provider's URL and the timestamp. `Decimal` renders the timestamp in decimal,
as `${Date.now()}` does.

Facts about the code that the model keeps:
- `storage.ts` replaces only the first `@` and every `.`, while `page.tsx`
  replaces every character outside `[A-Za-z0-9]`.
- The `userId` argument of `uploadImage` and `getImageUrl` is unused; the key
  always comes from the session email.
- Errors are plain `Error`s with fixed messages, or the provider's error object
  rethrown; the model calls them `AppError(message)` and
  `ProviderError(message)`.

Files: `common.dfy` (Option, truthiness, character classes, `includes`),
`decimal.dfy`, `cache_buster.dfy`, `storage.dfy`, `app_page.dfy`,
`profile_page.dfy`, `seed_card.dfy`.

## Model

| member | source | states |
|---|---|---|
| Common.IncludesStep | src/lib/storage.ts:38 | proof helper for the `includes` at this line: past a non-match at the start, an occurrence exists exactly when one exists in the rest |
| Common.Includes | src/lib/storage.ts:38 | `message.includes(sub)` holds exactly when `sub` occurs in `message` at some offset |
| Storage.ReplaceFirst | src/lib/storage.ts:7 | `replace('@', '_')` keeps the length and changes only the first occurrence |
| Storage.ReplaceAll | src/lib/storage.ts:7 | `replace(/\./g, '_')` keeps the length and changes every occurrence |
| Storage.SanitizeEmail | src/lib/storage.ts:6-8 | the key has the email's length; position i is `_` exactly for a `.` or the first `@`, else the email's character; the key never holds `.` |
| Storage.SanitizeEmailIdempotent | src/lib/storage.ts:6-8 | with at most one `@`, the key holds no `@` and sanitising it again changes nothing |
| Storage.SanitizeEmailNotIdempotent | src/lib/storage.ts:6-8 | with two or more `@`, sanitising the key again changes it |
| Storage.SanitizeEmailCollides | src/lib/storage.ts:6-8 | `a@b` and `a_b` get the same key, so the key is not injective |
| Storage.Directory | src/lib/storage.ts:82 | the listing prefix splits into `<type>s/` and then exactly the key |
| Storage.ObjectPath | src/lib/storage.ts:22 | an object path splits into the listing prefix, `/`, and then exactly the file name |
| Storage.ObjectPathTopLevel | src/lib/storage.ts:21-22 | banners lie under `banners/`, profile pictures under `profile-pics/` |
| Storage.ObjectPathParts | src/lib/storage.ts:22 | proof helper for `ObjectPathInjective`: an object path is the top-level `<type>s/` prefix followed by `<key>/<name>` |
| Storage.ObjectPathInjective | src/lib/storage.ts:22 | for keys without `/`, equal paths mean equal type, key and file name |
| Storage.CheckSession | src/lib/storage.ts:12-19 | the email guard comes first with its login message, then the token guard; passing both yields the email |
| Storage.RewriteProviderError | src/lib/storage.ts:36-42 | a provider error becomes the fixed permission message exactly when its message includes `Permission denied`; otherwise it is rethrown unchanged |
| Storage.PrepareUpload | src/lib/storage.ts:12-34 | after the guards, the request is path `<type>s/<sanitised email>/<file name>`, the file itself, `upsert` true and the file's content type |
| Storage.UploadImage | src/lib/storage.ts:10-60 | a guard error, the rewritten provider error, or the no-path error in that order; success exactly when a truthy path is reported, giving the public URL of the REPORTED path |
| Storage.UploadImageIgnoresUserId | src/lib/storage.ts:10-22 | the `userId` argument never changes the outcome |
| Storage.UploadImageFailsBeforeStorage | src/lib/storage.ts:11-29 | with a failing session check the outcome is an error and does not depend on the provider's reply |
| Storage.PrepareList | src/lib/storage.ts:64-82 | the same guards (with the view message), then the prefix `<type>s/<sanitised email>` |
| Storage.GetImageUrl | src/lib/storage.ts:62-110 | a guard error or rewritten provider error; success exactly when the guards pass and the listing succeeds; `null` exactly when the listing is missing or empty; a non-empty listing gives the public URL of prefix + `/` + the last entry's name |
| Storage.UploadPathInListedDirectory | src/lib/storage.ts:21-82 | every upload path is the listing prefix of the same session and type, then `/` and the file name |
| Storage.UploadThenGetImageUrl | src/lib/storage.ts:44-101 | if the provider reports the requested path and the listing ends with the uploaded file, `getImageUrl` returns the URL `uploadImage` returned |
| Decimal.DigitChar | src/app/page.tsx:65 | a digit value renders as a decimal digit character |
| Decimal.DigitValue | src/app/page.tsx:65 | inverse of the digit rendering of `${Date.now()}` at this line: a digit character reads back as the value that renders to it |
| Decimal.Show | src/app/page.tsx:65 | `${now}` is a non-empty string of digits with no leading zero |
| Decimal.ParseShow | src/app/page.tsx:65 | reading the rendered timestamp gives the timestamp back |
| Decimal.ShowInjective | src/app/page.tsx:65 | distinct timestamps render differently |
| CacheBuster.WithCacheBuster | src/app/page.tsx:65 | the displayed URL starts with the provider's URL and is `?t=` plus the timestamp's digit count longer; the exact suffix is pinned by `SplitWithCacheBuster` |
| CacheBuster.TrailingDigits | src/app/page.tsx:65 | helper of the inverse of the suffix built at this line: the counted run at the end is all digits and is preceded by a non-digit or the start |
| CacheBuster.SplitCacheBuster | src/app/page.tsx:65 | inverse of the suffix built at this line: a split URL begins with the recovered URL followed by `?t=` |
| CacheBuster.SplitWithCacheBuster | src/app/page.tsx:65 | stripping the suffix recovers the provider's URL and the timestamp, whatever the URL holds |
| CacheBuster.WithCacheBusterInjective | src/app/profile/page.tsx:91 | two uploads at different instants, or of different URLs, never show the same banner URL |
| AppPage.ReplaceNonAlnum | src/app/page.tsx:16-17 | length is kept; each character outside `[A-Za-z0-9]` becomes `_`, the others stay |
| AppPage.ReplaceNonAlnumCharacters | src/app/page.tsx:16-17 | the key holds only letters, digits and `_` |
| AppPage.ReplaceNonAlnumFixesAlnum | src/app/page.tsx:16-17 | purely alphanumeric strings are fixed points |
| AppPage.ReplaceNonAlnumIdempotent | src/app/page.tsx:16-17 | sanitising twice equals sanitising once |
| AppPage.SanitizeEmail | src/app/page.tsx:16-17 | the user id is never empty (so the `!userId` guards cannot fire); an absent or empty email gives `guest` |
| AppPage.SanitizeEmailCollides | src/app/page.tsx:16-17 | `a.b@c` and `a_b_c` get the same key |
| AppPage.NavbarKey | src/components/Navbar.tsx:9 | the navbar's key is the same replacement without the fallback: absent stays absent and empty stays empty |
| AppPage.SanitizersAgree | src/app/page.tsx:16-17 | on emails whose only punctuation is `.` and at most one `@`, the storage key and the page's replacement `ReplaceNonAlnum` (before the `guest` fallback) are equal |
| AppPage.SanitizersDisagreeOnSecondAt | src/lib/storage.ts:6-8 | on `a@b@c` the storage key keeps the second `@` while the page key replaces it |
| AppPage.SanitizersDisagreeOnDash | src/lib/storage.ts:6-8 | on `a-b@c` the storage key keeps the `-` while the page key replaces it |
| AppPage.BannerQuery | src/app/page.tsx:32 | the banner request is `/api/banner?user=` followed by the user id verbatim |
| AppPage.LoadedBanner | src/app/page.tsx:33-43 | the body's `url` when truthy; a missing url or a thrown fetch/parse gives the default banner |
| AppPage.ProfileView.constructor | src/app/page.tsx:20-24 | initial state: key from the email, empty banner URL, loading |
| AppPage.ProfileView.LoadBanner | src/app/page.tsx:28-45 | without a key nothing happens; otherwise the request goes out, `bannerUrl` becomes the loaded banner and loading ends on every path |
| AppPage.ProfileView.HandleBannerChange | src/app/page.tsx:50-73 | no file does nothing; otherwise posts file and key; a truthy url becomes url + `?t=` + now (splittable back); anything else leaves `bannerUrl`; loading untouched |
| ProfilePage.UserId | src/app/profile/page.tsx:46 | the email verbatim when truthy, else `guest`; never empty |
| ProfilePage.BannerPath | src/app/profile/page.tsx:71 | the path splits into the prefix `banners/`, exactly the user id, and the suffix `.jpg`; it depends on nothing but the user id, not on the chosen file |
| ProfilePage.BannerPathInjective | src/app/profile/page.tsx:71 | distinct user ids get distinct banner objects |
| ProfilePage.BannerPathOutsideStorageScheme | src/app/profile/page.tsx:71 | for an id without `/`, the flat banner object is never a `banners/<key>/<name>` object of the storage helpers |
| ProfilePage.ProfileView.constructor | src/app/profile/page.tsx:45-48 | initial state: raw-email id, empty banner URL, loading |
| ProfilePage.ProfileView.LoadBanner | src/app/profile/page.tsx:51-62 | `bannerUrl` is the hard-coded URL whatever the user, and loading ends |
| ProfilePage.ProfileView.HandleBannerChange | src/app/profile/page.tsx:67-94 | no file: no upload; otherwise uploads to `banners/<id>.jpg` in `profile-assets` with cacheControl `3600` and upsert; after success, a truthy `getPublicUrl` of that same `banners/<id>.jpg` path becomes url + `?t=` + now; an error or no URL for that path leaves `bannerUrl` |
| SeedCard.AspectStyle | src/components/SeedCard.tsx:30-38 | always one of the four classes; `aspect-square` exactly for tags other than `wide`, `classic`, `phone` |
| SeedCard.AspectStyleOfCardType | src/components/SeedCard.tsx:32-35 | square, wide, classic and phone map to `aspect-square`, `aspect-video`, `aspect-[4/3]`, `aspect-[9/16]` |
| SeedCard.AspectStyleInjective | src/components/SeedCard.tsx:30-38 | distinct card types get distinct classes |
| SeedCard.AspectStyleOnto | src/components/SeedCard.tsx:30-38 | every class in the answer set is the class of some card type |

## Left out

- Supabase, NextAuth and UploadThing calls are not modelled. `getSession()` becomes the `Option<SessionUser>` parameter. The replies of `upload` and `list` become `UploadReply` and `ListReply`. `getPublicUrl` becomes a function parameter, in `Storage` and in `ProfilePage.ProfileView.HandleBannerChange`. The `fetch`/`res.json()` outcomes of `src/app/page.tsx` become `FetchOutcome`. The `error` field of the Supabase upload reply in `src/app/profile/page.tsx` becomes `UploadOutcome`.
- `getSupabaseClient` (`src/lib/supabase.ts:26-58`) reads the session a second time and picks an anonymous or an authenticated client. The model assumes one session for the whole call, and the client choice is not part of this model.
- Logging (`console.*`) is left out, and so are the environment checks of `src/lib/supabase.ts:4-9`.
- Provider listing order is not modelled. `GetImageUrl` returns the last listed entry, as the code does. That this entry is the newest upload depends on the provider and is not stated.
- Strings are `seq<char>`, and a Dafny `char` is a Unicode scalar value, not a UTF-16 code unit. The contracts match JavaScript only on strings whose characters all lie in the Basic Multilingual Plane. On a character outside it, `AppPage.ReplaceNonAlnum` writes one `_` where JavaScript (no `u` flag) writes two, and lengths count code points rather than JavaScript `.length`. Lone surrogates, which a JavaScript string can hold, are not represented.
- `json.url` and `data.publicUrl` are taken to be strings. A non-string truthy value is not modelled.
- `src/app/profile/page.tsx:74` uses `supabase` without importing it. `ProfilePage.ProfileView.HandleBannerChange` models the handler as if the client were in scope, with the upload outcome passed in.
- AppPage.ProfileView.LoadBanner: the contract states only the final state. The intermediate `isLoadingBanner = true` while the request is pending is not stated.
- ProfilePage.ProfileView.LoadBanner: the same holds for its intermediate loading state.
- React state batching, effects re-running on `userId` changes, unmount races, and the `<img onError>` fallback to the default image are rendering concerns and are not modelled.
- `ProfilePicUploader.tsx` calls the storage helpers with signatures they do not have, so it is left out. The same goes for Header's random placeholder loop, scroll and interval handlers, the hover and glow state of `SeedCard`, and the other UI components.
- `CardGrid` (`src/components/CardGrid.tsx:26`) lays cards out with CSS `columns-*` breakpoint classes; that rendering is not modelled.
- The `upload-banner` and `banner` API routes behind the two fetches in `src/app/page.tsx` are not part of this model.
