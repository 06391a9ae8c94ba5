# ProfilePictureView: sizing and refresh logic

A Dafny model of the core of the Facebook Android SDK's `ProfilePictureView`
widget: how it turns a preset size type (CUSTOM, SMALL, NORMAL, LARGE), the
crop mode and the laid-out bounds into the (width, height) pair of an image
request; when it issues a new request and cancels the previous one; what it
renders (a square or portrait placeholder, or a bitmap); the wrap-content
size substitution of its measuring pass; and the save/restore of its six
persistent fields.

`ProfilePictureView.dfy` holds one module, `ProfilePictureView`:

- pure functions for the parts of the widget that only compute a value:
  `PresetSizeInPixels`, `OnMeasure`, the query resolver `ResolveQuery` and its
  change detection `UpdateQuery`, the three-way `RefreshDecision`,
  `ForcesRefresh` (when `setUserId` forces a refresh), and the saved-state
  bundle `SaveFields` / `ReadSavedFields`;
- the class `ProfilePictureView`, whose fields mirror `userId`,
  `presetSizeType`, `isCropped`, `imageContents`, `queryWidth`, `queryHeight`
  and `lastRequest`, and whose methods change them in place. Its ghost fields
  keep a log of submitted and cancelled requests and what was last rendered;
  the invariant `Valid()` says every request but the last one submitted has
  been cancelled, so at most one is live (`AtMostOneLive`). Each method is
  specified against the pure functions (`Refreshed` relates the state before
  and after a refresh).

Host inputs are method parameters: the laid-out width and height, the
measure mode and wrap-content flag of each axis, whether building an image
request fails (a malformed URL), and a string comparison that stands for
Java's `equalsIgnoreCase`; nothing about that comparison is assumed.
The three preset pixel sizes are given to the constructor and are at least 1.
`UNSPECIFIED_DIMENSION` is defined by the image-request class, which is not
part of this model; here it is 0, below the minimum size of 1, and no proof
depends on its exact value beyond that.

A refresh with a layout below one pixel does not update the query pair, yet
a forced refresh with a user and a previously stored pair still issues a
request (`ForcedRefreshBelowMinSizeStillIssues`).

## Model

| member | source | states |
|---|---|---|
| `ProfilePictureView.PresetSizeInPixels` | facebook/src/com/facebook/ProfilePictureView.java:400-424 | the result is unspecified exactly for an unknown size type or an unforced CUSTOM, and otherwise a pixel size of at least 1: the preset's own size, NORMAL's for a forced CUSTOM |
| `ProfilePictureView.ForcePresetOnlyAffectsCustom` | facebook/src/com/facebook/ProfilePictureView.java:412-418 | forcing a preset changes nothing but CUSTOM, which then behaves as NORMAL |
| `ProfilePictureView.OnMeasure` | facebook/src/com/facebook/ProfilePictureView.java:214-242 | an axis takes the forced preset size (as an exact spec) iff its mode is not exact and it is wrap-content; the custom path is taken iff some axis was replaced, otherwise both specs pass through unchanged; a substituted axis is at least 1 pixel for a valid preset |
| `ProfilePictureView.ResolveQuery` | facebook/src/com/facebook/ProfilePictureView.java:373-390 | no pair below 1 px on either axis; otherwise the effective size is the preset's on both axes (or the laid-out size for CUSTOM); cropped gives (min, min), uncropped keeps the smaller side and leaves the other unspecified; at most one side is unspecified and a specified side is at least 1 |
| `ProfilePictureView.PresetIgnoresLayout` | facebook/src/com/facebook/ProfilePictureView.java:378-382 | with SMALL, NORMAL or LARGE the query does not depend on the laid-out size |
| `ProfilePictureView.UpdateQuery` | facebook/src/com/facebook/ProfilePictureView.java:370-398 | the change flag is true iff the stored pair changes; a too-small layout keeps the stored pair, otherwise the pair becomes the resolved one |
| `ProfilePictureView.UpdateQueryIdempotent` | facebook/src/com/facebook/ProfilePictureView.java:392-397 | a second update with the same inputs reports no change and keeps the pair |
| `ProfilePictureView.RefreshDecision` | facebook/src/com/facebook/ProfilePictureView.java:325-358 | placeholder iff the user id is null or empty or both sides are unspecified; a new request iff not a placeholder and the pair changed or the refresh is forced; otherwise nothing |
| `ProfilePictureView.ForcedRefreshBelowMinSizeStillIssues` | facebook/src/com/facebook/ProfilePictureView.java:325-358 | below 1 px the pair is unchanged, yet a forced refresh with a user and a usable stored pair issues a request, and an unforced one does nothing |
| `ProfilePictureView.ComputedQueryNeverPlaceholder` | facebook/src/com/facebook/ProfilePictureView.java:327-335 | after an update at a measurable size, a refresh for a known user never shows a placeholder |
| `ProfilePictureView.UserIdChangeFetchesOnlyOnRealChange` | facebook/src/com/facebook/ProfilePictureView.java:198-203 | with the stored pair settled and a usable pair, assigning a non-empty id fetches exactly when the previous id was missing or empty or differs from it ignoring case, and otherwise does nothing; assigning the same id again fetches nothing when the comparison is reflexive |
| `ProfilePictureView.SettledLayoutIssuesNothing` | facebook/src/com/facebook/ProfilePictureView.java:249-254 | once the stored pair matches the layout, any number of further layout passes issue no request |
| `ProfilePictureView.RepeatedLayoutIssuesAtMostOne` | facebook/src/com/facebook/ProfilePictureView.java:249-254 | repeated layout passes at one size issue at most one request, and exactly one when there is a user and the first pass changes the pair |
| `ProfilePictureView.SaveFields` | facebook/src/com/facebook/ProfilePictureView.java:262-293 | reading the saved bundle back with `ReadSavedFields` (the reads of the restore path) gives exactly the six fields and the host's state, under the seven keys |
| `ProfilePictureView.ProfilePictureView.AtMostOneLive` | facebook/src/com/facebook/ProfilePictureView.java:348-353 | the requests submitted and not cancelled are exactly `lastRequest`, or none |
| `ProfilePictureView.ProfilePictureView.constructor` | facebook/src/com/facebook/ProfilePictureView.java:86-93 | a new widget has no user, CUSTOM preset, not cropped, no image, both query sides unspecified and no request |
| `ProfilePictureView.ProfilePictureView.SetPresetSize` | facebook/src/com/facebook/ProfilePictureView.java:146-160 | succeeds exactly for the four preset constants and then stores the size type; any other value fails with an illegal-argument error and leaves it unchanged |
| `ProfilePictureView.ProfilePictureView.SetCropped` | facebook/src/com/facebook/ProfilePictureView.java:177-181 | stores the crop mode, then refreshes without forcing |
| `ProfilePictureView.ProfilePictureView.SetUserId` | facebook/src/com/facebook/ProfilePictureView.java:198-203 | stores the id, then refreshes, forced as `ForcesRefresh` says of the previous and new id |
| `ProfilePictureView.ProfilePictureView.OnLayout` | facebook/src/com/facebook/ProfilePictureView.java:249-254 | an unforced refresh at the laid-out size; no other field changes |
| `ProfilePictureView.ProfilePictureView.OnSaveInstanceState` | facebook/src/com/facebook/ProfilePictureView.java:262-274 | the saved state is a bundle from which the six fields and the host's state read back exactly |
| `ProfilePictureView.ProfilePictureView.OnRestoreInstanceState` | facebook/src/com/facebook/ProfilePictureView.java:281-299 | a bundle sets the six fields to what it holds and shows the bitmap only when there is one; any other state leaves fields and rendering untouched; requests are untouched |
| `ProfilePictureView.ProfilePictureView.RefreshImage` | facebook/src/com/facebook/ProfilePictureView.java:325-358 | updates the pair as `UpdateQuery` says; a placeholder (square when cropped, portrait otherwise) with no request; or exactly one fresh request for (user, width, height) that becomes `lastRequest` and cancels the previous one, unless building it fails, when nothing changes; or nothing |
| `ProfilePictureView.ProfilePictureView.Supersede` | facebook/src/com/facebook/ProfilePictureView.java:348-353 | the new request is appended to the submitted log, the previous `lastRequest` (if any) is cancelled, and the invariant is kept |
| `ProfilePictureView.ProfilePictureView.ProcessResponse` | facebook/src/com/facebook/ProfilePictureView.java:360-368 | the response's bitmap is stored even with an error; it is shown only when there is no error and a bitmap; the response is not matched against `lastRequest` |
| `ProfilePictureView.ProfilePictureView.UpdateImageQueryParameters` | facebook/src/com/facebook/ProfilePictureView.java:370-398 | the step-by-step computation yields exactly `UpdateQuery`: the change flag and the new pair |

## Left out

- Host view framework: frame-layout inheritance, building the image view in `initialize`, `requestLayout`, `setMeasuredDimension`, `measureChildren`, `super.onMeasure`, `super.onLayout` and the host's own save/restore. `OnMeasure` returns what the widget would hand to these calls.
- Measure specs are a (mode, size) pair; the host's bit packing of the two into one integer is not modelled.
- Image request construction, the asynchronous download and cancellation: a request is an object holding its user id and dimensions; submitting and cancelling are a ghost log; construction failure is a parameter. The completion callback, its threading and late deliveries are not modelled; `ProcessResponse` is a sequential method that any caller may invoke.
- Resource lookups: the three preset pixel sizes are constructor arguments; the placeholder drawables are the two values of `Placeholder`.
- Parsing the preset-size layout attribute (`parseAttributes`); it amounts to calling `SetPresetSize` with the attribute value, CUSTOM by default.
- Logging calls, which have no effect on state.
- Case-insensitive string equality is abstracted as a function parameter of `SetUserId`.
- Bitmaps, the host's saved state and error objects are opaque values; the bundle is a map from key to value, and a missing key or a value of another kind reads as the bundle's default (no id, 0, false, no bitmap).
- OnRestoreInstanceState: a non-bitmap value stored under the bitmap key reads as no image, where the source's cast would throw.
- The getters `getPresetSize`, `isCropped` and `getUserId` only return fields, which the model reads directly.
