# Addly ad form and dashboard list, modelled in Dafny

Addly is a small web application. Signed-in users create, list, edit and delete "ad" records
(title, description, destination URL, active/inactive status) stored in a hosted backend.
This project models the two places where the client holds logic of its own:

- **The ad form** (`src/components/AdForm.tsx`):
  - its initial state;
  - the validator, which turns the three text fields into a map from field name to message;
  - `handleChange`, which edits one field and blanks that field's error;
  - `handleSubmit`, which validates, calls the `onSubmit` prop once, then navigates to
    `/dashboard` or shows a `submit` error, and always drops `loading` at the end.
- **The dashboard list** (`src/app/dashboard/page.tsx`):
  - the `ads` / `loading` / `error` state;
  - `fetchAds`, and the `if (user)` guard that triggers it;
  - `handleDelete`, with its confirmation step and its optimistic removal
    `ads.filter(ad => ad.id !== id)`.

Files (one module each):

- `wrappers.dfy`: `Option`, standing for `undefined` / `null`.
- `ad_record.dfy`: the `Ad` row and `Partial<Ad>` (`src/lib/supabaseClient.ts`).
- `js_string.dfy`: `String.prototype.trim` and `length`, the two string operations the
  validator uses.
  - Trimming uses the exact ECMAScript whitespace set: WhiteSpace plus LineTerminator.
  - `length` counts UTF-16 code units, so a character above U+FFFF counts twice.
- `ad_form.dfy`: the validator as functions, and the component as the class
  `AdFormComponent`.
  - The class fields are `formData`, `errors`, `loading`, and two logs: `submissions`
    (calls to `onSubmit`) and `navigations` (`router.push` targets).
- `dashboard.dfy`: the removal function `WithoutId` with its lemmas, and the page as the
  class `DashboardPage`.
  - The class fields are `ads`, `loading`, `error`, and the backend requests sent
    (`fetchRequests`, `deleteRequests`).

Everything outside the component becomes an input:

- the URL parser behind `validateUrl` is the function parameter `parsesAsUrl`;
- how `onSubmit`, the `select` query or the `delete` query ended is an outcome argument;
- the answer to `confirm()` is a boolean;
- the signed-in user is an `Option`.

Three behaviours of the code are worth stating outright, and the model follows each:

- The URL rule accepts anything `new URL(url)` accepts (`AdForm.tsx:24-31`), `mailto:x`
  included, although its message asks for a valid URL in the http(s) sense.
  So `parsesAsUrl` is left uninterpreted rather than restricted to http(s).
- Lengths are `trim().length`, which counts UTF-16 code units, not characters.
- A save runs `setErrors({})` before calling `onSubmit` (`AdForm.tsx:66`), so a failed save
  leaves exactly `{submit: …}`. No field error can be lost: validation has just passed.

## Model

| member | source | states |
|---|---|---|
| `JsString.IsWhitespace` | src/components/AdForm.tsx:36 | The characters `trim()` removes: ECMAScript WhiteSpace (tab, VT, FF, space, NBSP, ZWNBSP, the Zs category) and LineTerminator (LF, CR, LS, PS). |
| `JsString.SkipForward` | src/components/AdForm.tsx:36 | The first non-whitespace position at or after `k`. Everything skipped is whitespace. |
| `JsString.SkipBack` | src/components/AdForm.tsx:36 | The start of the trailing whitespace run that ends at `k`. The position before it is not whitespace. |
| `JsString.Trim` | src/components/AdForm.tsx:36-38 | `trim()` returns a string with no whitespace at either end, never longer than its input. |
| `JsString.TrimBounds` | src/components/AdForm.tsx:36-38 | `trim()` returns a slice `s[a..b]`. Everything before `a` and from `b` on is whitespace. |
| `JsString.TrimSplit` | src/components/AdForm.tsx:36-38 | Every string is `lead + trim(s) + trail`, with `lead` and `trail` all whitespace. |
| `JsString.TrimPadded` | src/components/AdForm.tsx:36-38 | Trimming whitespace padding off an already trimmed string gives back exactly that string. |
| `JsString.PaddingDoesNotChangeTrim` | src/components/AdForm.tsx:36-38 | Adding whitespace on either side never changes what `trim()` returns. |
| `JsString.TrimIdempotent` | src/components/AdForm.tsx:36-38 | `trim(trim(s)) == trim(s)`. |
| `JsString.TrimEmptyIff` | src/components/AdForm.tsx:36 | `!s.trim()` holds exactly when `s` is all whitespace. |
| `JsString.Utf16Length` | src/components/AdForm.tsx:38 | `length` is between the number of characters and twice that number. |
| `AdRecord.ParseStatus` | src/lib/supabaseClient.ts:14 | Only "active" and "inactive" are statuses. Reading one back gives a status that spells it. |
| `AdForm.WithField` | src/components/AdForm.tsx:80-81 | `{...prev, [field]: value}`: the changed field holds `value` and every other field is unchanged. |
| `AdForm.OrElse` | src/components/AdForm.tsx:15-17 | `v \|\| fallback`: a present non-empty value is kept, an absent or empty one gives the fallback; with fallback `''` the result is the value or `''`. |
| `AdForm.InitialFormData` | src/components/AdForm.tsx:14-19 | No initial data gives the blank form with status active. Otherwise title, description and URL are the given value or `''`, and the status is the given one, defaulting to active. |
| `AdForm.PrefillFromStoredAd` | src/components/AdForm.tsx:14-19 | A stored ad pre-fills the form with exactly its title, description, URL and status. Empty strings stay empty. |
| `AdForm.TitleError` | src/components/AdForm.tsx:36-40 | A blank title gives 'Title is required'. A trimmed length of 1-2 gives the at-least-3 message. No error exactly when the trimmed length is 3 or more. |
| `AdForm.DescriptionError` | src/components/AdForm.tsx:42-46 | The same rules as the title, with threshold 10 and the description messages. |
| `AdForm.UrlError` | src/components/AdForm.tsx:48-52 | An all-whitespace URL gives 'Destination URL is required'. A non-blank URL that fails to parse gives the valid-URL message. No error exactly when the URL is not blank and parses. |
| `AdForm.ErrorMap` | src/components/AdForm.tsx:34-52 | Each failing rule adds exactly its message under its key. Passing rules add no key. No other keys appear. |
| `AdForm.ValidationErrors` | src/components/AdForm.tsx:33-52 | `newErrors` holds the title, description and URL rule outcomes, each under its own key. |
| `AdForm.ValidationErrorsShape` | src/components/AdForm.tsx:34-52 | The keys are always a subset of {title, description, destination_url}, and every message is non-empty. |
| `AdForm.ValidationPassesIff` | src/components/AdForm.tsx:54-55 | The error map is empty exactly when the form is submittable: trimmed title ≥ 3 and trimmed description ≥ 10 code units, URL not blank and parses. Both directions. |
| `AdForm.TitlePaddingDoesNotChangeValidation` | src/components/AdForm.tsx:36-40 | Whitespace typed around the title changes no verdict and no message. |
| `AdForm.DescriptionPaddingDoesNotChangeValidation` | src/components/AdForm.tsx:42-46 | Whitespace typed around the description changes no verdict and no message. |
| `AdForm.ClearError` | src/components/AdForm.tsx:83-85 | The keys are unchanged, every other entry is unchanged, and the changed field's entry, if any, becomes ''. |
| `AdForm.ClearErrorHidesOnlyThatField` | src/components/AdForm.tsx:82-85 | After a change, the displayed (truthy) errors are the old ones minus the changed field. |
| `AdForm.SubmitFailureMessage` | src/components/AdForm.tsx:72-74 | The banner starts with 'Failed to save ad: '. The rest is exactly the error's message, or 'Unknown error occurred' for a non-Error throw. |
| `AdForm.AdFormComponent.constructor` | src/components/AdForm.tsx:14-21 | The initial `formData` comes from `initialData`. `errors` is empty, `loading` is false, and nothing has been submitted or navigated. |
| `AdForm.AdFormComponent.Validate` | src/components/AdForm.tsx:33-56 | Replaces `errors` wholesale with the validation map. Returns true exactly when that map is empty, that is, when the form is submittable. |
| `AdForm.AdFormComponent.HandleChange` | src/components/AdForm.tsx:80-86 | Sets only the changed field. Blanks only that field's error. |
| `AdForm.AdFormComponent.HandleSubmit` | src/components/AdForm.tsx:58-78 | Invalid form: errors become the validation map; `loading`, the `onSubmit` calls and the navigations are unchanged. Valid form: everything `Save` states holds. |
| `AdForm.AdFormComponent.SaveCompleted` | src/components/AdForm.tsx:65-77 | The state after the try/catch/finally: one more `onSubmit` call with `formData`, `loading` false; success gives `{}` and one push of `/dashboard`, failure gives exactly `{submit: message}` and no push. |
| `AdForm.AdFormComponent.Save` | src/components/AdForm.tsx:65-77 | `onSubmit` is called exactly once with the current `formData`, and `loading` ends false. Success: errors empty, one push of `/dashboard`. Failure: errors exactly `{submit: message}`, no navigation. |
| `Dashboard.WithoutId` | src/app/dashboard/page.tsx:51 | `ads.filter(ad => ad.id !== id)`: never longer than `ads`; what it keeps is stated by the lemmas below. |
| `Dashboard.WithoutIdMembers` | src/app/dashboard/page.tsx:51 | The filtered list holds exactly the ads whose id differs. Its length drops by exactly the number of ads carrying the id. |
| `Dashboard.CountIdZeroIff` | src/app/dashboard/page.tsx:51 | The match count is zero exactly when no ad carries the id. |
| `Dashboard.WithoutIdPosition` | src/app/dashboard/page.tsx:51 | A kept ad at position i lands at position "number of kept ads before i". |
| `Dashboard.WithoutIdKeepsOrder` | src/app/dashboard/page.tsx:51 | Of two kept ads, the earlier one still comes first, and both are at their ranks. |
| `Dashboard.WithoutIdMultiset` | src/app/dashboard/page.tsx:51 | Every ad with another id keeps its multiplicity. Ads carrying the id have multiplicity 0. |
| `Dashboard.WithoutIdConcat` | src/app/dashboard/page.tsx:51 | Filtering distributes over concatenation. |
| `Dashboard.WithoutAbsentId` | src/app/dashboard/page.tsx:51 | Removing an id no ad carries leaves the list unchanged. |
| `Dashboard.WithoutIdIdempotent` | src/app/dashboard/page.tsx:51 | Removing the same id twice equals removing it once. |
| `Dashboard.DashboardPage.constructor` | src/app/dashboard/page.tsx:9-11 | The page starts with no ads, `loading` true and no error. |
| `Dashboard.DashboardPage.OnUserChanged` | src/app/dashboard/page.tsx:15-19 | With no user, nothing changes and no query is sent. With a user, everything `FetchCompleted` states holds: one query, the outcome's effect on `ads` and `error`, `loading` false, no delete sent. |
| `Dashboard.DashboardPage.FetchCompleted` | src/app/dashboard/page.tsx:21-36 | The state after one `select` query: success sets `ads` to the data or `[]` and keeps `error`; failure keeps `ads` and sets 'Failed to fetch ads'; `loading` false, no delete sent. |
| `Dashboard.DashboardPage.FetchAds` | src/app/dashboard/page.tsx:21-36 | One query is sent. Success: `ads` becomes the data, or `[]` when it is null. Failure: `ads` is kept and `error` is 'Failed to fetch ads'. `loading` is false after either. |
| `Dashboard.DashboardPage.HandleDelete` | src/app/dashboard/page.tsx:38-56 | Declined: no query and no state change. Confirmed: exactly one delete query for the id. Success: `ads` is the filtered list and no ad with the id remains. Failure: `ads` is kept and `error` is 'Failed to delete ad'. `loading` is untouched. |

## Left out

- Rendering: the JSX, CSS classes, the `disabled` attributes and the "Saving..." / "Loading..." labels are not modelled.
  - `loading` is modelled as state only.
  - The model does not show that it blocks a second submit or a second click: each handler
    runs to completion as one step.
- `new URL(url)`: the WHATWG URL parser is a foreign call. It is the uninterpreted parameter
  `parsesAsUrl`, so no fact about which strings parse is proved.
- Strings are Dafny strings of Unicode scalar values.
  - A JavaScript string holding a lone surrogate cannot be represented.
  - For every other string, `Trim` and `Utf16Length` agree with `trim()` and `length`.
- The hosted backend:
  - the client set-up in `src/lib/supabaseClient.ts:1-6` is not modelled;
  - the `select` / `order` / `delete` chains are replaced by outcome arguments;
  - the `created_at` descending order is the backend's job and is not modelled;
  - so is the owner filtering.
- `src/app/dashboard/create/page.tsx` and `src/app/dashboard/edit/[id]/page.tsx` are not
  part of this model.
  - They are the `onSubmit` callers: an insert or update of `formData`, with a throw when
    no user is signed in.
  - Their effect reaches the model only as a `SubmitOutcome`.
- `src/app/sign-in/page.tsx`, `src/app/page.tsx` and `sst.config.ts` are not part of this
  model: sign-in redirects, route redirection and deployment configuration.
- `async`/`await` and React's deferred state updates: each handler runs as one sequential step.
  - The `ads.filter(...)` in `handleDelete` reads the `ads` captured at render time; the
    model uses the current `ads`.
  - The Delete buttons stay enabled while a delete is in flight (`page.tsx:131-136`), so two
    confirmed deletes can run at once, both filtering the same captured `ads`. When the
    second one succeeds, its `setAds` puts the first deleted ad back on screen although the
    backend no longer holds it. The model runs each delete to completion and cannot show this.
- `console.error`, the `confirm()` dialog text, `router.back()` (the Cancel button) and
  `toLocaleDateString` have no effect on the modelled state.
- AdForm.AdFormComponent.HandleChange: for the status field it requires the value "active"
  or "inactive".
  - Those are the only two options of the `<select>` (`AdForm.tsx:167-168`), its only
    caller.
  - At run time the source would store any string; the model's `Status` type cannot hold
    another.
- Dashboard.DashboardPage.OnUserChanged: with no user signed in, the page never fetches
  and `loading` stays true.
  - The model reproduces this as the source has it: the "Loading your ads..." view stays up.
