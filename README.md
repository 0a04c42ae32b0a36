# Cinema landing page: a verified model of its core

This project models, in Dafny, the core of a portfolio site for a film-maker. It is a
Next.js application with a public side and an admin side:

- **The film catalogue route** (`app/api/films/route.ts`). GET filters the stored films by
  publication and category. It fetches them through a retry that reconnects once on a
  "prepared statement" error, sorts them and never reports failure. POST pre-checks the
  category, strips empty values, validates against the film schema and passes only the
  schema's keys on.
- **The database retry** (`lib/db/prisma.ts`): `withPrisma` and the listing route's
  inlined copy of it.
- **The settings document** shared by the banner and bio routes. Banner POST clamps the
  opacity and rewrites the whole document. Bio POST merges field by field.
- **The admin gate and the login route.** A session cookie with a fixed value opens every
  `/admin` path.
- **The contact route and form.** The route checks four strings against a schema. The
  form checks trimmed lengths and an e-mail pattern, then maps server issues to fields.
- **The upload route.** It has a size guard and a type guard, and builds a storage key
  from folder, time stamp, random text and extension.
- **The admin page.** It covers the film form, the display-order and year inputs, the
  comparator behind its sort menu, and `handleSubmit`: uploads, checks, the JSON body it
  builds, PATCH or POST, and the toast shown.
- **The public pages.** This covers the `useFilms` hook, the profile page's cards, "view
  more", count badge, category colours and video dialog, the portfolio's cards with their
  built-in fallback, and the video player's time display and toggles.

Modules follow the source files: `FilmsRoute`, `Retry`, `FilmOrder`, `SettingsStore`,
`Banner`, `Bio`, `Middleware`, `Login`, `ContactRoute`, `ContactForm`, `Upload`,
`AdminForm`, `UseFilms`, `Profile`, `Portfolio` and `VideoPlayer`.

`Values` (JSON values and JavaScript truthiness), `Films` (the film record) and `Text`
(trim, decimal text, `parseInt`, split, lower case, string order) are shared by them.

Where the source changes state, the model does too:

- the retry client, the settings file, the contact form, the admin page, the films hook,
  the profile page and the player are classes whose methods update their fields;
- the listing sort works in place on an array;
- the cleaning and projection loops of the film POST and the admin body build are
  methods with loops or stepwise updates.

Each such method's ensures give its result or its whole new state, either directly or as
a specification function of its inputs and the old state. The source's promises are proved
about that state or function. The in-place sort is proved to leave its array sorted and a
permutation of the old contents.

Where the code behaves in a way a reader might not expect, the model follows the code:

- **Banner POST replaces the whole settings document.** It writes only the banner fields
  and a time stamp, so the bio fields are dropped (`Banner.PostOverwritesDocument`). It
  does not merge.
- **A stored opacity can be `null`.** A non-numeric value reads as NaN, which JSON stores
  as `null` (`Banner.StoredOpacityInRange`).
- **The admin gate is narrower than "every path prefixed `/admin`".** The gate itself
  tests that raw prefix, but the route matcher only runs it on `/admin` and `/admin/...`
  (`Middleware.AdministratorPath`).
- **The video dialog opens on `!!selectedVideo`.** A card with an empty link does not open
  it.
- **The login secret is a parameter.** The code's built-in fallback value is not
  reproduced.

## Model

| member | source | states |
|---|---|---|
| Values.ReadFields | app/api/auth/login/route.ts:6-7 | destructuring reads an object's own fields; any other non-`null` value has none of them, so every destructured field is absent |
| Values.FieldOr | app/api/settings/banner/route.ts:33-34 | a field read with a fallback is the stored value exactly when it is truthy, else the fallback |
| Text.Trim | components/contact.tsx:37 | the result starts and ends with a non-whitespace character or is empty |
| Text.TrimIsSlice | components/contact.tsx:37 | the trimmed text is a contiguous slice of the input after its leading whitespace |
| Text.TrimEmptyIff | app/admin/page.tsx:342 | trimming gives "" exactly when every character is whitespace |
| Text.TrimUnpadded | components/contact.tsx:37 | text without surrounding whitespace is left unchanged |
| Text.TrimPadded | components/contact.tsx:37 | whitespace around a core is removed and the core kept |
| Text.Decimal | components/vimeo-style-profile.tsx:26 | `toString` of a natural: non-empty digits, no leading zero except for 0, one digit exactly below 10 |
| Text.DecimalRoundTrip | components/vimeo-style-profile.tsx:26 | the decimal text reads back as the number |
| Text.DecimalInjective | components/vimeo-style-profile.tsx:26 | different numbers have different texts |
| Text.PadTwo | components/video-player.tsx:98 | `padStart(2, '0')`: texts of two or more characters kept, shorter ones left-padded with '0' to two |
| Text.LeadingDigits | app/admin/page.tsx:819 | the longest digit prefix |
| Text.ParseIntRoundTrip | app/admin/page.tsx:653 | `parseInt` of an integer's text gives the integer back, negatives included |
| Text.ParseIntStopsAtNonDigit | app/admin/page.tsx:819 | `parseInt` reads digits up to the first non-digit; when the text starts "0x" or "0X" the digits are "0" and the rest is read as hexadecimal |
| Text.ParseIntNoDigits | app/admin/page.tsx:819 | text starting with a non-digit, non-sign, non-space character is NaN |
| Text.ParseIntNegative | app/admin/page.tsx:653 | a '-' before digits negates the value read |
| Text.ParseIntUnsigned | app/admin/page.tsx:819 | text starting with a digit reads as its decimal digit prefix, or, after a "0x" or "0X" start, as its hexadecimal digit prefix |
| Text.HexDigitValue | app/admin/page.tsx:819 | a hexadecimal digit is worth less than 16: a decimal digit its own value, a letter 10 or more |
| Text.LeadingHexDigits | app/admin/page.tsx:819 | the longest hexadecimal digit prefix |
| Text.ParseIntHex | app/admin/page.tsx:819 | "0x" or "0X", then hexadecimal digits, then a non-digit or nothing, reads as the base-16 value of those digits |
| Text.ParseIntHexWithoutDigits | app/admin/page.tsx:819 | "0x" or "0X" with no hexadecimal digit after it is NaN |
| Text.ParseIntNegativeHex | app/admin/page.tsx:819 | a '-' before a hexadecimal text negates its value |
| Text.ParseIntHexExamples | app/admin/page.tsx:819 | "0x1A" reads 26 and "0X1f" reads 31 |
| Text.ParseIntSignedHexExample | app/admin/page.tsx:819 | "-0x1" reads -1 |
| Text.ParseIntEmptyHexExample | app/admin/page.tsx:819 | "0xg" is NaN |
| Text.Split | app/api/upload/route.ts:50 | `split`: at least one piece, and no piece holds the separator |
| Text.SplitJoin | app/api/upload/route.ts:50 | joining the pieces with the separator gives the text back |
| Text.LastPieceIsSuffix | app/api/upload/route.ts:50 | `pop()` of the split is a separator-free suffix that follows the last separator |
| Text.FirstIndexAfterPrefix | app/admin/page.tsx:314 | the first separator of `p + c + r` is at the length of `p` when `p` lacks it |
| Text.LastPieceAfterSeparator | app/api/upload/route.ts:50 | the last piece of `p + c + r` is `r` when `r` lacks the separator |
| Text.Lower | app/admin/page.tsx:120 | `toLowerCase`: same length, each character lowered |
| Text.LowerChar | app/admin/page.tsx:120 | ASCII capitals and the Latin-1 capitals U+00C0 to U+00DE (not the multiplication sign) move by 32; characters outside those ranges are unchanged |
| Text.LessIrreflexive | app/admin/page.tsx:139-140 | no string is below itself under JavaScript's `<` |
| Text.LessAsymmetric | app/admin/page.tsx:139-140 | `<` never holds both ways |
| Text.LessTransitive | app/admin/page.tsx:139-140 | `<` is transitive |
| Text.LessTotal | app/admin/page.tsx:139-140 | two different strings are ordered one way or the other |
| FilmOrder.KeyLessAsymmetric | app/admin/page.tsx:119-141 | the projection comparison of the title, year, date and category keys is asymmetric |
| FilmOrder.KeyNotLessTransitive | app/admin/page.tsx:119-141 | "not after" is transitive for those keys |
| FilmOrder.TextNotLessTransitive | app/admin/page.tsx:139-140 | "not below" is transitive on strings |
| FilmOrder.DisplayOrderCompare | app/api/films/route.ts:111-121 | negative exactly when the first film has the larger effective display order, or the same one and is newer; zero exactly when both order and creation time are equal |
| FilmOrder.Insert | app/api/films/route.ts:111-121 | one insertion step: a sorted prefix grows by one element, the rest of the array is untouched, and the contents are a permutation of the old ones |
| FilmOrder.PrecedesTotal | app/api/films/route.ts:111-121 | under both comparators any two films can be placed one way or the other |
| FilmOrder.PrecedesTransitive | app/api/films/route.ts:111-121 | under both comparators "may stand before" is transitive |
| FilmOrder.SortInPlace | app/api/films/route.ts:111-121 | sorting in place leaves the array sorted under the comparator and a permutation of its old contents |
| FilmOrder.GetSortedFilms | app/admin/page.tsx:97-149 | no films gives `[]`; otherwise a sorted permutation of the films under the chosen key and direction |
| FilmOrder.ListingSortedMeaning | app/api/films/route.ts:110-121 | in a listing-sorted sequence the effective display orders never increase, and among equal ones newer films come first |
| FilmOrder.LargerOrderFirst | app/api/films/route.ts:115-117 | a larger effective display order always stands earlier |
| FilmOrder.MissingOrderIsMinusOne | app/api/films/route.ts:112-113 | a film without display order compares like -1: after every order from 0 up, before every order from -2 down |
| FilmOrder.AdminDisplayOrderIgnoresDirection | app/admin/page.tsx:108-118 | the admin display-order key ignores the direction and equals the listing comparator |
| FilmOrder.AdminKeyDirection | app/admin/page.tsx:139-141 | ascending puts the smaller projection first, descending the larger, and equal projections compare 0 |
| FilmOrder.AdminSortedMeaning | app/admin/page.tsx:119-141 | in an admin-sorted list no later film has a smaller (ascending) or larger (descending) projection than an earlier one |
| Retry.FirstSuccessRunsOnce | lib/db/prisma.ts:50-53 | when connecting and the first run succeed, the first run's value is returned after exactly connect and run |
| Retry.RecoverRunsAtMostOnce | lib/db/prisma.ts:54-70 | the catch block runs the operation at most once |
| Retry.AtMostTwoRuns | lib/db/prisma.ts:47-71 | neither wrapper runs the operation more than twice |
| Retry.NonTransientRethrown | lib/db/prisma.ts:56-69 | a non-transient error is rethrown unchanged with no disconnect and no further run |
| Retry.TransientReconnectsOnce | lib/db/prisma.ts:56-67 | a transient error, from the connect or the first run, is followed by one disconnect, then at most one connect and one more run; the first of these to fail is thrown, else the second run's value is returned |
| Retry.PreparedStatementIsTransient | lib/db/prisma.ts:56-57 | an error is transient when its message mentions "prepared statement" or its code is "42P05" |
| Retry.TransientThenSuccess | app/api/films/route.ts:85-108 | a transient failure followed by success returns the second run's value after disconnect, connect and run |
| Retry.Client.Recovering | lib/db/prisma.ts:54-70 | the catch block's calls, outcome, remaining replies, run count and connection state are those of `Recover` |
| Retry.Client.WithPrisma | lib/db/prisma.ts:47-71 | `withPrisma`'s calls, outcome, remaining replies, run count and connection state are those of `WithPrismaSpec` |
| Retry.Client.FindManyWithRetry | app/api/films/route.ts:84-108 | the route's inlined retry makes the calls, has the outcome and leaves the replies, run count and connection state of `FindManySpec` |
| Retry.Client.Step | lib/db/prisma.ts:52-63 | one client call takes the next reply and records the call; a run counts one; a successful connect connects, a disconnect disconnects, a run leaves the connection as it was |
| Retry.Client.TryBlock | lib/db/prisma.ts:50-54 | the `try` block stops at the first error, reports it with the number of runs so far, and leaves the client as its calls describe |
| Retry.WithPrismaSplit | lib/db/prisma.ts:47-71 | `withPrisma` is its `try` block followed, after an error, by the catch block on the rest of the replies |
| Retry.ConnectedAfterAppend | lib/db/prisma.ts:47-71 | the connection state after two call sequences is the second run from where the first left it |
| Retry.RecoverConnected | lib/db/prisma.ts:54-70 | after a non-transient error the connection is untouched; after a transient one it is up exactly when the disconnect and the connect succeeded; a returning retry leaves it up |
| Retry.WithPrismaReturnsConnected | lib/db/prisma.ts:47-71 | whenever `withPrisma` returns, the client is connected |
| Retry.FindManyConnected | app/api/films/route.ts:84-108 | the listing's retry leaves the connection as it was unless a transient error struck, then up exactly when disconnect and connect succeeded; it returns connected unless the first run returned on a disconnected client |
| FilmsRoute.WhereOf | app/api/films/route.ts:29-40 | only `published == "true"` filters on publication; a category filters exactly when it is non-empty |
| FilmsRoute.Filter | app/api/films/route.ts:84-88 | a film is fetched exactly when it is stored and matches the filter |
| FilmsRoute.Get | app/api/films/route.ts:26-161 | always 200 and success; no client or no database URL gives `[]`; a thrown fetch gives `[]`; otherwise a listing-sorted permutation of the matching films |
| FilmsRoute.Cleaned | app/api/films/route.ts:186-193 | the cleaned body keeps exactly the keys whose value is neither `null` nor `""`, with their values |
| FilmsRoute.CleanBody | app/api/films/route.ts:186-193 | the cleaning loop builds exactly the cleaned body |
| FilmsRoute.Stripped | app/api/films/route.ts:195-201 | only a `videoSize` of 0 and a `videoFormat` of "mp4" are removed |
| FilmsRoute.IssuesForExact | app/api/films/route.ts:6-23 | an issue is reported for a key exactly when the key is checked and its value fails |
| FilmsRoute.WithDefaults | app/api/films/route.ts:21-22 | the parsed data holds the schema's keys present in the input with their values, `isPublished` defaulting to false and `displayOrder` to 0 |
| FilmsRoute.Allowed | app/api/films/route.ts:208-219 | the create data holds exactly the allowed keys of the validated data, with their values |
| FilmsRoute.ProjectAllowed | app/api/films/route.ts:208-219 | the projection loop builds exactly the allowed keys' data |
| FilmsRoute.Post | app/api/films/route.ts:164-262 | an unparsable or `null` body gives 500; bad category gives 400 before cleaning; schema failure gives 400 with its issues; otherwise create with the allowed keys, 201, or 500 when the create fails; a body that is not an object is read as having no fields |
| FilmsRoute.OnlyTrueFiltersPublished | app/api/films/route.ts:34-40 | any `published` other than "true", "false" included, and an empty category filter nothing |
| FilmsRoute.CleaningKeepsZeroAndFalse | app/api/films/route.ts:189-193 | `null` and `""` are removed while `0` and `false` are kept |
| FilmsRoute.ParseValidIff | app/api/films/route.ts:6-23 | the schema accepts exactly when every schema key passes its check |
| FilmsRoute.YearRange | app/api/films/route.ts:13 | the year check accepts exactly 1900 to the year after the current one |
| FilmsRoute.DurationExamples | app/api/films/route.ts:14 | `HH:MM:SS` with two digits each is accepted; shorter or non-digit forms are not |
| FilmsRoute.ValidDataMeaning | app/api/films/route.ts:6-23 | valid data holds a non-empty title, a year in range, a duration, an allowed category, a URL, and boolean and numeric defaults |
| FilmsRoute.RequiredOk | app/api/films/route.ts:7-22 | passing every key's check means the required keys are present and well-typed |
| FilmsRoute.DefaultsOfStripped | app/api/films/route.ts:186-219 | the cleaned body with its defaults has only schema keys, no `null` or `""`, no zero `videoSize` and no "mp4" `videoFormat` |
| FilmsRoute.CreatedDataMeaning | app/api/films/route.ts:186-219 | created data has only schema keys, no `null` or `""`, no zero `videoSize`, no "mp4" `videoFormat`, and the projection keeps it whole |
| FilmsRoute.RequiredFieldsRejected | app/api/films/route.ts:173-204 | a missing category passes the pre-check but fails the schema; an empty title is stripped and then fails |
| FilmsRoute.NonObjectBodyRejected | app/api/films/route.ts:166-204 | a parsed body that is neither an object nor `null` passes the category pre-check and fails the schema with an issue on `title` |
| FilmsRoute.IssuesFor | app/api/films/route.ts:6-23 | at most one issue per validated key, and every issue names one of those keys |
| FilmsRoute.Parse | app/api/films/route.ts:204 | a rejection has at least one issue; accepted data has only schema keys and always carries `isPublished` and `displayOrder` |
| SettingsStore.Status | app/api/settings/banner/route.ts:58-90 | 200 exactly for a save, 400 for a rejected request, 500 for a failure |
| Banner.Get | app/api/settings/banner/route.ts:17-48 | defaults without a readable file; otherwise URL and position fall back when falsy, and opacity only when absent |
| Banner.StringNumber | app/api/settings/banner/route.ts:67 | `Number` of text: "" is 0, digits read as their value, a negative value needs a leading '-' |
| Banner.NumberValue | app/api/settings/banner/route.ts:67 | `Number` of JSON: numbers as is, `null` and `false` as 0, objects as NaN; a one-element array as its element when that is a number, NaN when it is a boolean; two or more elements NaN |
| Banner.Clamp | app/api/settings/banner/route.ts:67 | the result is within 0..100, equal to the input inside it, 0 below it and 100 above it |
| Banner.Opacity | app/api/settings/banner/route.ts:66-68 | an absent opacity is 90; otherwise the clamped number, or `null` for NaN |
| Banner.Document | app/api/settings/banner/route.ts:70-75 | the written document holds exactly the URL, position, opacity and time stamp |
| Banner.Post | app/api/settings/banner/route.ts:51-91 | a failed data-directory creation, an unparsable or a `null` body fails; a falsy URL is 400 and writes nothing; a failed write is 500; otherwise the document is stored and returned; a body that is not an object is read as having no fields |
| Banner.ClampIdempotent | app/api/settings/banner/route.ts:67 | clamping twice is clamping once, and clamping changes exactly the out-of-range values |
| Banner.StoredOpacityInRange | app/api/settings/banner/route.ts:65-68 | a stored numeric opacity is within 0..100, and `null` is stored exactly for NaN |
| Banner.StringNumberExamples | app/api/settings/banner/route.ts:67 | "150" reads 150, "-5" reads -5, "abc" is NaN |
| Banner.OpacityOfText | app/api/settings/banner/route.ts:66-68 | text with no surrounding whitespace is stored as its number clamped to 0..100, or as `null` when it is not a number |
| Banner.OpacityExamples | app/api/settings/banner/route.ts:66-68 | "150" is stored as 100, "-5" as 0, "" as 0, "abc" as `null`, 40 as 40 |
| Banner.PostOverwritesDocument | app/api/settings/banner/route.ts:70-77 | any key other than the banner fields and the time stamp is dropped from the document |
| Banner.GetAfterPost | app/api/settings/banner/route.ts:32-36 | a GET after a successful POST returns exactly the URL, position and opacity it saved |
| Banner.GetFallbacksDiffer | app/api/settings/banner/route.ts:33-35 | GET replaces a falsy URL but keeps a stored opacity of 0 |
| Banner.ArrayNumberExamples | app/api/settings/banner/route.ts:67 | `[5]` reads 5, `["7"]` reads 7, `[[]]` reads 0 and `[true]` is NaN |
| Banner.NonObjectBodyRejected | app/api/settings/banner/route.ts:52-63 | a parsed body that is neither an object nor `null` does not throw and has no truthy URL, so it is refused with 400 |
| Bio.Default | app/api/settings/bio/route.ts:22-33 | profile fields have non-empty defaults and bio texts default to "" |
| Bio.Get | app/api/settings/bio/route.ts:17-69 | exactly the ten managed fields, each the stored value when truthy and its default otherwise |
| Bio.Document | app/api/settings/bio/route.ts:98-111 | the existing document with the managed fields merged and the time stamp set; other keys kept |
| Bio.Post | app/api/settings/bio/route.ts:72-127 | a failed data-directory creation, an unparsable or `null` body, an unreadable file, or a failed write, fails and leaves the file; otherwise the body is merged into the stored document (an absent file counting as empty) and stored; a body that is not an object is read as having no fields |
| Bio.ProfileFieldResolution | app/api/settings/bio/route.ts:100-103 | a profile field is the submitted value if truthy, else the stored one if truthy, else the default |
| Bio.BioFieldResolution | app/api/settings/bio/route.ts:104-106 | a bio text is replaced by any submitted value, "" and `null` included; only an absent one keeps the stored text |
| Bio.KeepsBannerFields | app/api/settings/bio/route.ts:99 | the banner fields of the existing document survive a bio POST |
| Bio.GetAfterPost | app/api/settings/bio/route.ts:39-50 | a GET after a POST shows the profile fields exactly as written, and each bio text as written unless falsy, then "" |
| Bio.EmptyFieldsGetDefaults | app/api/settings/bio/route.ts:41-47 | an empty stored name or e-mail reads as its default |
| Bio.Merged | app/api/settings/bio/route.ts:98-111 | a merged profile field is always truthy; a bio text sent in the body is taken as sent; an absent one with no truthy stored value gets its default |
| Bio.NonObjectBodyKeepsFields | app/api/settings/bio/route.ts:74-111 | a body that is not an object merges nothing: every truthy stored managed field keeps its value |
| Middleware.Gate | middleware.ts:4-23 | outside `/admin` the request passes; under it, it passes exactly with the session value, else it is redirected to login with the path |
| Middleware.SessionOf | middleware.ts:7 | the session is present exactly when its cookie is, with that cookie's value |
| Middleware.Handle | middleware.ts:25-30 | unmatched paths pass; matched ones go through the gate |
| Middleware.OnlySessionCookieMatters | middleware.ts:7-10 | requests with the same session cookie get the same decision |
| Middleware.AdministratorPath | middleware.ts:6 | the gate alone would redirect "/administrator", but the matcher lets it through |
| Middleware.MatchedAdminPathsGated | middleware.ts:26-27 | on `/admin` and `/admin/...` the request passes exactly with the session value |
| Login.Status | app/api/auth/login/route.ts:13-38 | 200 exactly for a login, 401 for a refusal, 500 for a failure |
| Login.ConfiguredSecret | app/api/auth/login/route.ts:10 | the environment value when set and non-empty, else the fallback |
| Login.SessionCookie | app/api/auth/login/route.ts:21-27 | the gate's cookie name and value, one day, HTTP-only, secure in production, same-site lax, path "/" |
| Login.Post | app/api/auth/login/route.ts:4-40 | an unparsable or `null` body fails; login succeeds exactly for a truthy password equal to the secret and sets the session cookie; otherwise 401; a body that is not an object is read as having no fields |
| Login.EmptyPasswordNeverLogsIn | app/api/auth/login/route.ts:12 | with an empty secret nobody logs in |
| Login.OnlyTheSecretLogsIn | app/api/auth/login/route.ts:12 | any other password value, of any type, is refused |
| Login.IssuedCookieOpensGate | app/api/auth/login/route.ts:21-27 | the cookie issued on login makes the gate let every request through |
| Login.NonObjectBodyUnauthorized | app/api/auth/login/route.ts:6-38 | a parsed body that is neither an object nor `null` has no password and is refused with 401 |
| Login.NullBodyFails | app/api/auth/login/route.ts:6-38 | a `null` body makes the destructuring throw: 500 |
| ContactRoute.Status | app/api/contact/route.ts:29-55 | 200 exactly when sent, 400 for invalid data, 500 for a failure |
| ContactRoute.FieldIssue | app/api/contact/route.ts:6-11 | a field raises no issue exactly when it is a string of the allowed length (e-mail: valid address); an issue names the field |
| ContactRoute.Issues | app/api/contact/route.ts:6-11 | every issue names one checked field |
| ContactRoute.IssuesExact | app/api/contact/route.ts:6-11 | some issue names a field exactly when it is checked and invalid |
| ContactRoute.Post | app/api/contact/route.ts:13-57 | a message is stored exactly when the answer is "sent"; invalid exactly when some field fails; sent exactly when all pass and the write succeeds, storing the four strings sent |
| ContactRoute.IssuesAllValid | app/api/contact/route.ts:18 | the issue list is empty exactly when every field is valid |
| ContactRoute.LengthBounds | app/api/contact/route.ts:7-10 | name 2..100, subject 3..200, message 10..2000 characters, bounds included |
| ContactRoute.StoredOnlyWhenValid | app/api/contact/route.ts:18-23 | a valid object is stored exactly once, with the four fields as sent, when the write succeeds |
| ContactRoute.IssuesNameInvalidFields | app/api/contact/route.ts:37-46 | the issues name exactly the invalid fields |
| ContactForm.EmailPatternIff | components/contact.tsx:43 | the e-mail expression matches exactly the texts without whitespace, with one '@' not first, and a '.' at least two places after it and not last |
| ContactForm.PatternHasShape | components/contact.tsx:43 | a match has that shape |
| ContactForm.ShapeHasPattern | components/contact.tsx:43 | that shape matches |
| ContactForm.NeedsDot | components/contact.tsx:43 | an address without '.' never matches |
| ContactForm.NeedsSingleAt | components/contact.tsx:43 | an address with two '@' never matches |
| ContactForm.NeedsNoWhitespace | components/contact.tsx:43 | an address with whitespace anywhere, even at its ends, never matches |
| ContactForm.EmailExamples | components/contact.tsx:43 | "ana@site.com" matches; "ana@site", "a@b@c.d" and " ana@site.com" do not |
| ContactForm.ErrorsMarkFailedChecks | components/contact.tsx:34-57 | each failed check marks its own field with its own message; a blank e-mail is "required", not "invalid" |
| ContactForm.ErrorsForMeaning | components/contact.tsx:34-57 | a field has an error exactly when its trimmed-length or e-mail check fails, and only the four fields can |
| ContactForm.BlankEmailFailsPattern | components/contact.tsx:41-45 | a blank e-mail also fails the expression, so the `else if` only chooses the message |
| ContactForm.FieldErrorsMeaning | components/contact.tsx:105-113 | a field gets an error exactly when some server error's first path element names it, and the message is the last such error's |
| ContactForm.AsServerErrors | components/contact.tsx:107 | the route's issues arrive one for one, with path and message |
| ContactForm.ReceivedIssuesMarkFields | components/contact.tsx:105-113 | one-element issue paths mark exactly the fields they name |
| ContactForm.ServerIssuesMarkInvalidFields | components/contact.tsx:105-113 | the route's schema issues mark exactly the fields the route finds invalid |
| ContactForm.Contact.ValidateForm | components/contact.tsx:34-57 | records the errors of the current fields and reports whether there are none |
| ContactForm.Contact.HandleSubmit | components/contact.tsx:59-125 | sends exactly when validation passes; on success the form is cleared and a reset timer starts, on failure the server's field errors are shown; loading ends |
| ContactForm.Contact.Send | components/contact.tsx:71-124 | the request's outcome: success clears the form, sets the flag and starts one more five-second timer; failure keeps the form, starts no timer and sets the field errors |
| ContactForm.Contact.SuccessTimeout | components/contact.tsx:95 | a started timer fires: the success flag is cleared, whichever success started it, and one timer fewer is pending |
| ContactForm.FieldErrors | components/contact.tsx:105-113 | no error is recorded under the empty field name |
| ContactForm.RecordErrors | components/contact.tsx:35-55 | the error recording gives exactly the errors of its checks |
| ContactForm.CollectFieldErrors | components/contact.tsx:106-111 | the `forEach` builds exactly the field errors |
| ContactForm.NameCheckedAfterTrim | components/contact.tsx:37 | one character padded with spaces fails the name check |
| ContactForm.ClientValidMeetsServerMinimum | components/contact.tsx:37-53 | a form valid on the client meets the server's minimum lengths |
| Upload.Status | app/api/upload/route.ts:14-91 | 200 exactly for an upload, 400 for a rejection, 500 otherwise |
| Upload.Guard | app/api/upload/route.ts:19-45 | no file (or an empty text field), then size over 15 GiB, then a type outside the eight allowed, in that order |
| Upload.Folder | app/api/upload/route.ts:52 | images go to "thumbnails", everything else to "films" |
| Upload.Extension | app/api/upload/route.ts:50 | the extension has no '.', and a name without '.' is its own extension |
| Upload.StorageKey | app/api/upload/route.ts:53 | the key starts with the folder and '/' |
| Upload.PublicUrl | app/api/upload/route.ts:70 | the URL is the base, '/', then the key |
| Upload.Post | app/api/upload/route.ts:14-91 | a failed form read is 500; a guard's rejection is 400; a failed write is 500; otherwise the URL, key, size and type |
| Upload.NameIrrelevantToAcceptance | app/api/upload/route.ts:19-45 | acceptance depends on size and type alone |
| Upload.SizeBoundary | app/api/upload/route.ts:27-28 | exactly 15 GiB passes and one byte more does not |
| Upload.SizeCheckedBeforeType | app/api/upload/route.ts:28-40 | an oversized file of a refused type is reported as too large |
| Upload.FolderOfAllowedTypes | app/api/upload/route.ts:36-52 | among allowed types, exactly the video types go to "films" |
| Upload.KeyRoundTrip | app/api/upload/route.ts:50-53 | the key's first '/'-piece is the folder and its last '.'-piece the name's extension |
| Upload.UploadedFolderMeaning | app/api/upload/route.ts:48-82 | an uploaded file is allowed and within size, its key's folder tells image from video, and the URL is base/key |
| AdminForm.DisplayOrderInput | app/admin/page.tsx:815-821 | "" and unreadable text give 0; otherwise the value `parseInt` reads |
| AdminForm.DisplayOrderRoundTrip | app/admin/page.tsx:814-821 | reading back what the input shows gives the display order, for every order |
| AdminForm.DisplayOrderReadsLeadingDigits | app/admin/page.tsx:819 | typed text is read up to its first non-digit |
| AdminForm.DisplayOrderUnreadable | app/admin/page.tsx:819 | text that does not start with a number gives 0 |
| AdminForm.VideoFormat | app/admin/page.tsx:314 | the format is non-empty and has no '/' |
| AdminForm.VideoFormatOfSubtype | app/admin/page.tsx:314 | "type/subtype" gives the subtype, or "mp4" when it is empty |
| AdminForm.VideoFormatWithoutSlash | app/admin/page.tsx:314 | a MIME type without '/' gives "mp4" |
| AdminForm.PayloadAt | app/admin/page.tsx:332-362 | a key is in the body exactly when it is sent, with its sent value |
| AdminForm.PayloadAlwaysCarries | app/admin/page.tsx:332-348 | title, year, duration, category, publication, display order and video URL are always sent, with the form's values |
| AdminForm.PayloadOptionalTexts | app/admin/page.tsx:334-338 | the translated titles and descriptions are sent exactly when non-empty |
| AdminForm.PayloadMediaKeys | app/admin/page.tsx:342-362 | the type and thumbnail are sent exactly when not blank; size and format exactly when both are truthy |
| AdminForm.Find | app/admin/page.tsx:317 | `find`: none exactly when no film has the id; otherwise the first film with it |
| AdminForm.SaveRequest | app/admin/page.tsx:364-365 | PATCH to the film's URL exactly when editing, otherwise POST to the collection, with the body |
| AdminForm.AdditionsAt | app/admin/page.tsx:332-362 | the literal plus the added video URL, thumbnail and video fields agrees with the body on every key |
| AdminForm.BuildFilmData | app/admin/page.tsx:332-362 | the stepwise build gives exactly the body |
| AdminForm.Submit | app/admin/page.tsx:262-365 | the imperative `handleSubmit` up to the save request gives exactly the submission of its specification |
| AdminForm.NewFilmNeedsVideo | app/admin/page.tsx:292-294 | a new film without a video file is never sent; at most the thumbnail is uploaded, and once it is through the error is the video requirement |
| AdminForm.InvalidCategoryNeverSent | app/admin/page.tsx:326-329 | a category outside the four is never sent |
| AdminForm.UploadsBeforeCategoryCheck | app/admin/page.tsx:273-329 | with a bad category the chosen files are still uploaded before the abort |
| AdminForm.SentRequestMeaning | app/admin/page.tsx:262-365 | a sent film has a valid category and a video or an edited film, every chosen file was uploaded, PATCH exactly when editing |
| AdminForm.SentBodyMeaning | app/admin/page.tsx:312-356 | a sent body carries the form's category, the uploaded video's URL when a file was chosen, and the uploaded thumbnail's URL when it is not blank |
| AdminForm.EditedFilmSubmission | app/admin/page.tsx:188-365 | saving a listed film loaded into the form without new files uploads nothing and sends a PATCH to its URL with the body built from the film and its own video |
| AdminForm.EditedFilmBody | app/admin/page.tsx:188-210 | that body gives back the film's title, year, category and video URL; size and format exactly when both are truthy; thumbnail and translations exactly when present |
| AdminForm.SaveErrorMessage | app/admin/page.tsx:375-385 | the thrown message is non-empty: the body's message, else its first issue's, else "Erro status: text" |
| AdminForm.FailureToastNamesTheError | app/admin/page.tsx:402-407 | a failed submission's toast is destructive and names a non-empty error |
| AdminForm.AdminPage.constructor | app/admin/page.tsx:36-60 | the empty form for the current year, no films, nothing edited, hidden form |
| AdminForm.AdminPage.Edit | app/admin/page.tsx:188-210 | the film is loaded into the form, recorded as edited and the form shown |
| AdminForm.AdminPage.ResetForm | app/admin/page.tsx:165-186 | the empty form, nothing edited, form hidden |
| AdminForm.AdminPage.SetDisplayOrder | app/admin/page.tsx:815-821 | only the display order changes, to what the input reads |
| AdminForm.AdminPage.SetYear | app/admin/page.tsx:653 | only the year changes, to `parseInt` of the text |
| AdminForm.AdminPage.ChooseVideo | app/admin/page.tsx:151-156 | a chosen file replaces the form's; no file leaves the form |
| AdminForm.AdminPage.ChooseThumbnail | app/admin/page.tsx:158-163 | the same for the thumbnail |
| AdminForm.AdminPage.HandleSubmit | app/admin/page.tsx:262-411 | uploads and request as the specification says; a successful save resets the form; the toast matches the outcome; loading ends |
| AdminForm.EditForm | app/admin/page.tsx:188-210 | editing loads the film's title, year, category, video URL and publication into the form, its display order or 0, and no chosen files |
| AdminForm.KeptVideo | app/admin/page.tsx:314-321 | editing without a new video keeps the listed film's URL, and its size when truthy; otherwise the form's URL with no size or format |
| AdminForm.Prepare | app/admin/page.tsx:262-365 | a sent film has a category among the four and a chosen video or an edited film; PATCH exactly when editing; an abort carries a non-empty message |
| AdminForm.SubmitToast | app/admin/page.tsx:393-407 | the toast is destructive exactly when the film was not saved, and always has a description |
| UseFilms.Get | lib/hooks/use-films.ts:35-41 | `get` gives none exactly when no parameter has the name, else the value of the first parameter with it |
| UseFilms.QueryMeaning | lib/hooks/use-films.ts:35-41 | `published` is present exactly when given, as "true" or "false"; `category` exactly when truthy, with its value |
| UseFilms.QueryReachesRoute | lib/hooks/use-films.ts:36-43 | the route filters on publication exactly for `published == true`, and on the category exactly when it is truthy |
| UseFilms.BuildParams | lib/hooks/use-films.ts:35-41 | the appended parameters are exactly the query |
| UseFilms.FilmsHook.constructor | lib/hooks/use-films.ts:27-29 | no films, loading, no error |
| UseFilms.FilmsHook.FetchFilms | lib/hooks/use-films.ts:32-57 | success replaces the films; failure keeps them and records the message or the default; loading ends |
| Profile.ListsPublishedFilmsOnly | components/vimeo-style-profile.tsx:18 | the page's query makes the route list published films of every category |
| Profile.ToVideo | components/vimeo-style-profile.tsx:21-32 | a card always has a thumbnail, keeps the film's own one when non-empty, links to the video, and its views read back as the count |
| Profile.Videos | components/vimeo-style-profile.tsx:21 | one card per film, in order |
| Profile.VideosFollowFilms | components/vimeo-style-profile.tsx:21-35 | cards keep the films' ids, order and links |
| Profile.Displayed | components/vimeo-style-profile.tsx:36 | a prefix of the cards: all of them when showing all or at most four, else four |
| Profile.ViewMoreIffHidden | components/vimeo-style-profile.tsx:837 | once loaded, "view more" shows exactly when some cards are hidden |
| Profile.CountLabelMeaning | components/vimeo-style-profile.tsx:665-669 | the badge starts with the count, which reads back, and is singular exactly for one film |
| Profile.CategoryColorsMeaning | components/vimeo-style-profile.tsx:764-776 | neutral colours exactly outside the four categories; the four get four different colour sets |
| Profile.ProfilePage.constructor | components/vimeo-style-profile.tsx:14-16 | cut list and closed dialog |
| Profile.ProfilePage.ViewMore | components/vimeo-style-profile.tsx:840 | every card is listed |
| Profile.ProfilePage.SelectVideo | components/vimeo-style-profile.tsx:702 | the card's link is selected; the dialog opens exactly when it is non-empty |
| Profile.ProfilePage.OpenChange | components/vimeo-style-profile.tsx:812 | closing clears the selection; opening changes nothing |
| Portfolio.DisplayFilms | components/portfolio.tsx:75-86 | one card per film, in order, when there are films; the six built-in projects otherwise |
| Portfolio.FilmCardMeaning | components/portfolio.tsx:76-85 | a film's card is of type "Film", always has a thumbnail, links to the video, and its year text reads back as the year |
| Portfolio.DisplayedCount | components/portfolio.tsx:252 | the count shown is the number of films, or six |
| Portfolio.CategoryLabelMeaning | components/portfolio.tsx:214-220 | categories outside the four are labelled fiction, except the names the map inherits from `Object.prototype`, which give no label; the four get four different labels |
| Portfolio.StoredCategoriesLabelled | components/portfolio.tsx:214-220 | every category the film schema accepts gets a label |
| Portfolio.StaticProjectsKnownCategories | components/portfolio.tsx:12-67 | the built-in projects all use one of the four categories |
| VideoPlayer.ClockOf | components/video-player.tsx:95-97 | minutes and seconds below 60, adding up to the time |
| VideoPlayer.ClockUnique | components/video-player.tsx:95-97 | those are the only such fields |
| VideoPlayer.TwoDigitsValue | components/video-player.tsx:98 | a number below 100 is written as two digits that read back as the number |
| VideoPlayer.FormatTimeRoundTrip | components/video-player.tsx:94-99 | three pieces from one hour on, two below; the shown time reads back as the time |
| VideoPlayer.FormatTimeLongForm | components/video-player.tsx:98 | from one hour on: unpadded hours, two-digit minutes and seconds |
| VideoPlayer.FormatTimeShortForm | components/video-player.tsx:98 | below one hour: unpadded minutes, two-digit seconds |
| VideoPlayer.Player.constructor | components/video-player.tsx:16-18 | not playing, not muted, volume 1 in the state and on the element, no calls made |
| VideoPlayer.Player.TogglePlay | components/video-player.tsx:46-56 | without the element nothing happens; otherwise pause when playing, play when not, and the flag flips |
| VideoPlayer.Player.ToggleMute | components/video-player.tsx:58-64 | without the element nothing happens; otherwise the flag flips and the element's `muted` is set to the new flag, so the two agree afterwards |
| VideoPlayer.Player.VolumeChange | components/video-player.tsx:66-74 | without the element nothing happens; otherwise the element's and the state's volume take the new value, the flag is set exactly for volume 0, the element's `muted` is left alone, and the icon shows muted exactly for volume 0 |
| VideoPlayer.Player.OnPlaybackEvent | components/video-player.tsx:118-120 | the play, pause and ended events set the flag |

## Left out

- Floating point: JSON numbers are integers. Fractional years, sizes and opacities, and
  the player's fractional seconds, are not modelled; time is whole seconds.
- NaN in the admin form's year is `None`. The year and display-order inputs are
  `type="number"`, so the browser hands `parseInt` only number-shaped text; the model
  still accepts any text.
- Banner.StringNumber: reads "" (after trimming) as 0 and decimal integers with an optional
  sign. The hexadecimal, binary and octal forms, exponents, fractions and "Infinity",
  which `Number` also reads, are NaN here. No admin input for the opacity is part of this
  model, so the route may receive any JSON.
- Banner.NumberValue: text inside a one-element array is read by `Banner.StringNumber`,
  with that member's limits.
- Text.ParseInt: `parseInt` without a radix, decimal or "0x" hexadecimal. Values are exact
  integers, so the loss of precision above 2^53 is not modelled.
- Text.Lower: lowers only the ASCII capitals and the Latin-1 capitals. Other capitals
  (Greek, Cyrillic, Latin Extended) and the special cases of Unicode case mapping are
  left unchanged.
- Text.LowerChar: the same limit, one character at a time.
- FilmOrder.SortInPlace, FilmOrder.GetSortedFilms: `Array.prototype.sort` must be stable,
  so films that compare equal keep their input order. The insertion sort only moves an
  element past one it must precede, so it is stable too, but stability is not proved; the
  contracts state sortedness and permutation only.
- I/O is a parameter: the database, the file system, the object store, `fetch`, clocks
  and `Math.random`. Each route takes the outcome of each external call as an argument;
  for the settings routes' data-directory creation that is `dirOk` in `Banner.Post` and
  `Bio.Post`, and in their GETs a failed creation is passed as an unreadable file, since
  the same handler catches both.
- Logging, development-only details in responses, and the `Cache-Control` headers are left
  out.
- The e-mail and URL validators of the validation library are parameters (`isEmail`,
  `isUrl`).
- Strings are sequences of characters. UTF-16 code units and URL encoding of query
  parameters are not modelled.
- The admin page's toasts, the dialog and the cards are data only; rendering, translation
  texts (kept as their keys), hover states and animation are not modelled.
- The contact form's toasts (components/contact.tsx:63-67, 89-92, 98-102, 117-121) are not
  modelled: `ContactForm.Contact` keeps the form, error and flag state, not the messages
  shown.
- The player's seek, fullscreen, loading state, time updates and control visibility are
  not modelled. A volume is any real number; the slider's 0..1 range is not checked.
- The admin page's film reload (`fetchFilms`) after a save or a delete is not modelled;
  `handleDelete` and `handleLogout` call routes that are not part of this model. The form's
  `id` field is not sent by `handleSubmit` and is not modelled.
- The health route, the logout route and the `[id]` film route are not part of this model.
- AdminForm.Payload: the JSON body is keyed by an enumeration of its sixteen keys, and
  `KeyName` gives the JSON names.
- AdminForm.PayloadMediaKeys: the `trim() !== ''` checks are stated as "not all
  whitespace" (`Text.Blank`), which `Text.TrimEmptyIff` proves equivalent.
- AdminForm.SaveErrorMessage: a body that cannot be read as JSON is modelled as empty
  message fields, which fall through to the status text just as the `catch` does.
- Profile.ClassNames: the four tinted class strings are not proved pairwise distinct;
  the colour sets are (`Profile.CategoryColorsMeaning`).
- UseFilms.FilmsHook.FetchFilms: a successful fetch leaves the previous error in place,
  as the hook does (it never clears `error`).
- Portfolio: the portfolio's `useFilms(true)` query is the same as the profile page's
  (`Profile.ListsPublishedFilmsOnly`).
