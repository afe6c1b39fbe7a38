# Image editor shell: the state machines under the views

This project models the logic of a small single-page image-editor app. The
app's pages are React views. Under them are a few small state machines and
record operations, and each is modelled in Dafny and proved:

- **ImageCanvas**: the canvas placeholder. It has an "image loaded" flag and a
  zoom level. Two buttons move the zoom in steps of 25%, and the zoom stays
  within [25, 400]. A preview box is sized from the zoom as
  `min(600, 600·zoom/100) × min(400, 400·zoom/100)`.
- **Settings**: a four-field preferences record. It starts from fixed
  defaults. On fetch, the stored object is shallow-merged over it. Every
  control change builds a new full snapshot and writes it. The snapshot
  replaces the in-memory record only when the store accepts the write.
- **Profile**: the persisted profile row, kept apart from an edit buffer
  (display name and bio). The module models fetch, save, reset and editing,
  plus the page's fallbacks: the title, the avatar initial, the avatar
  source and the 8-character user-id prefix.
- **MainSidebar**: a toggle for the expanded section (it flips between none
  and a title) and a separate "selected tool" register.
- **Editor**: the route's auth gate. It maps `(loading, user)` to a spinner,
  to a redirect that renders nothing, or to the editor layout.
- **Common**: the signed-in user, the database client's `{ data, error }`
  answers, and the rule that error code `PGRST116` means "no row" rather than
  failure. It also holds the mount effect shared by the profile and settings
  pages.

Every component that holds state is a class. Its fields are the component's
`useState` variables, and every event handler is a method. Each method's
postcondition ties the new fields to pure functions of the old fields and of
the inputs. The lemmas are about those functions. Collaborators are
parameters:

- the signed-in user is an `Option<User>`;
- a select's outcome is a `ReadResult` (an answer with optional data and
  error, or a thrown exception);
- an upsert's outcome is a `WriteResult`;
- a navigation is returned as a value.

An async handler is modelled at its single await. `BeginSave` runs up to the
await: it raises `saving` and returns the row it sends. `FinishSave` runs
after the await. `ChangePreference` and `Save` run both halves as one
atomic step.

Some points where the code differs from what one might expect of it. The
model follows the code in each case.

- A rejected or throwing preferences write leaves the in-memory record as it
  was before the change. It does not keep the attempted value. So after an
  accepted write the record is that write's snapshot; before any accepted
  write it is the starting record (the defaults, or the fetched object merged
  over them). See `Settings.AfterEditsPerKey`.
- On mount, the profile and settings pages test only whether a user is
  present. They ignore the auth provider's loading flag, so while the
  provider is still loading and reports no user yet, they already redirect
  to `/auth`. The editor
  route waits for the provider. See `Editor.PagesRedirectWhileProviderLoads`.
- The preview box stops growing at 100%: at every zoom from 100% to 400% it
  is 600 × 400.
- The float division `600 * zoom / 100` is exact for every integer zoom, so
  the model uses integers.

## Model

| member | source | states |
|---|---|---|
| `Common.Delivered` | src/pages/Settings.tsx:55-58 | The data reaches the page only when the read returned without an error other than "no row" (`PGRST116`) and returned a row. A not-found error passes the data through like no error at all. |
| `Common.OnMount` | src/pages/Profile.tsx:36-43 | The mount effect redirects to `/auth` exactly when there is no user, and fetches otherwise. The same effect is at src/pages/Settings.tsx:36-43. |
| `ImageCanvas.ZoomedOut` | src/components/ImageCanvas.tsx:30 | Zoom-out gives `max(25, z - 25)`. The result is never below 25, is below z exactly when z is above 25, is exactly one step down from 50 on, and keeps a valid zoom valid. |
| `ImageCanvas.ZoomedIn` | src/components/ImageCanvas.tsx:33 | Zoom-in gives `min(400, z + 25)`. The result is never above 400, is above z exactly when z is below 400, is exactly one step up up to 375, and keeps a valid zoom valid. |
| `ImageCanvas.InThenOutRestores` | src/components/ImageCanvas.tsx:30-33 | For a valid zoom, zooming in then out restores it if and only if zoom ≤ 375. |
| `ImageCanvas.OutThenInRestores` | src/components/ImageCanvas.tsx:30-33 | For a valid zoom, zooming out then in restores it if and only if zoom ≥ 50. |
| `ImageCanvas.RunKeepsValid` | src/components/ImageCanvas.tsx:30-33 | Any sequence of zoom clicks from a valid zoom ends at a valid zoom: a multiple of 25 in [25, 400]. |
| `ImageCanvas.RunZoomIns` | src/components/ImageCanvas.tsx:33 | n zoom-in clicks that do not reach the cap add exactly 25·n. |
| `ImageCanvas.RunZoomOuts` | src/components/ImageCanvas.tsx:30 | n zoom-out clicks that do not reach the floor subtract exactly 25·n. |
| `ImageCanvas.ReachableIffValid` | src/components/ImageCanvas.tsx:8-33 | Starting from 100, a zoom is reachable by clicks if and only if it is a multiple of 25 in [25, 400]. |
| `ImageCanvas.PreviewWidth` | src/components/ImageCanvas.tsx:76 | The width equals `min(600, 6·zoom)`, so the division is exact. It never exceeds 600, equals 600 exactly when zoom ≥ 100, and is at least 150 at every valid zoom. |
| `ImageCanvas.PreviewHeight` | src/components/ImageCanvas.tsx:77 | The height equals `min(400, 4·zoom)`. It never exceeds 400, equals 400 exactly when zoom ≥ 100, and is at least 100 at every valid zoom. |
| `ImageCanvas.PreviewKeepsShape` | src/components/ImageCanvas.tsx:75-78 | At every zoom the box keeps the 3:2 shape of its 600 × 400 base. |
| `ImageCanvas.Render` | src/components/ImageCanvas.tsx:21-88 | The zoom label, the zoom controls and the preview box appear exactly when an image is loaded. The label shows the zoom, and the box has the computed size. |
| `ImageCanvas.Canvas.constructor` | src/components/ImageCanvas.tsx:7-8 | The canvas starts with no image at zoom 100, which is a valid zoom. |
| `ImageCanvas.Canvas.UploadImage` | src/components/ImageCanvas.tsx:10-13 | After an upload an image is loaded, whatever was there before, so the upload is idempotent. The zoom is unchanged and stays valid. |
| `ImageCanvas.Canvas.ZoomOut` | src/components/ImageCanvas.tsx:30 | The button exists only once an image is loaded (src/components/ImageCanvas.tsx:28). The new zoom is `ZoomedOut` of the old one, the zoom invariant is kept, and the image flag is unchanged. |
| `ImageCanvas.Canvas.ZoomIn` | src/components/ImageCanvas.tsx:33 | The button exists only once an image is loaded (src/components/ImageCanvas.tsx:28). The new zoom is `ZoomedIn` of the old one, the zoom invariant is kept, and the image flag is unchanged. |
| `Settings.Merge` | src/pages/Settings.tsx:58 | In `{...p, ...s}`, every key present in the stored object overrides and every absent key keeps its current value. |
| `Settings.Set` | src/pages/Settings.tsx:103-104 | In `{...p, [k]: v}`, the snapshot holds v at k and equals p at every other key. |
| `Settings.Single` | src/pages/Settings.tsx:104 | The one-key object holds v at k and nothing at any other key. |
| `Settings.MergeNothing` | src/pages/Settings.tsx:58 | Merging an empty stored object changes nothing. |
| `Settings.MergeIdempotent` | src/pages/Settings.tsx:58 | Merging the same stored object twice gives the same result as merging it once. |
| `Settings.EqualOnAllKeys` | src/pages/Settings.tsx:15-20 | Two records that agree on all four keys are equal. |
| `Settings.MergeDetermined` | src/pages/Settings.tsx:58 | Any record that takes each key from the stored object where present and from the current record otherwise is the merge, so `Merge`'s per-key contract is its full specification. |
| `Settings.SetDetermined` | src/pages/Settings.tsx:103-104 | Any record that holds v at k and the current value at every other key is the single-key change, so `Set`'s per-key contract is its full specification. |
| `Settings.SetIsOneKeyMerge` | src/pages/Settings.tsx:58-104 | A single-key change is the shallow merge of a one-key object. |
| `Settings.SetCurrentValue` | src/pages/Settings.tsx:104 | Changing a key to the value it already holds gives back the same record. |
| `Settings.SetTwice` | src/pages/Settings.tsx:104 | Of two changes to the same key, the later one wins. |
| `Settings.SetCommutes` | src/pages/Settings.tsx:104 | Changes to different keys commute. |
| `Settings.Fetched` | src/pages/Settings.tsx:55-58 | A thrown read, a read error other than `PGRST116`, no data, or a column that is not an object leaves the preferences unchanged. Otherwise the stored object is merged over them. |
| `Settings.AfterEditsPerKey` | src/pages/Settings.tsx:79-105 | After any run of changes, each key holds the value of its last accepted change, or its starting value if no change to it was accepted. Rejected and throwing writes leave no trace. |
| `Settings.TwoSwitchesOff` | src/pages/Settings.tsx:226-244 | Turning notifications off and then auto-save off, with both writes accepted, leaves both off and theme and language as they were. |
| `Settings.Render` | src/pages/Settings.tsx:113-333 | The page shows a spinner exactly while loading. Otherwise it shows the current record, with the saving banner exactly while a write runs. |
| `Settings.SettingsPage.constructor` | src/pages/Settings.tsx:27-34 | The page starts at theme "system", notifications on, auto-save on and language "en", with loading on and saving off. |
| `Settings.SettingsPage.FetchPreferences` | src/pages/Settings.tsx:45-65 | With no user, nothing changes. With a user, the record becomes `Fetched` of the old one and loading is off on every path: success, error or exception. |
| `Settings.SettingsPage.BeginSave` | src/pages/Settings.tsx:67-77 | With no user, nothing is sent and nothing changes. With a user, the whole snapshot is sent under the user's id and saving is on. |
| `Settings.SettingsPage.FinishSave` | src/pages/Settings.tsx:79-99 | The snapshot replaces the record only when the write was accepted. A rejected or throwing write leaves the record unchanged. Saving is off afterwards. |
| `Settings.SettingsPage.ChangePreference` | src/pages/Settings.tsx:103-106 | The write carries the whole old record with key k changed. The record becomes that snapshot only if the write is accepted. With no user, nothing is sent or changed. |
| `Profile.OrEmpty` | src/pages/Profile.tsx:64-65 | The "or empty" fallback gives the stored string, or "" for null. |
| `Profile.BufferOf` | src/pages/Profile.tsx:62-66 | A row fills the buffer with its fields, or "" where a field is null. With no row the buffer is empty strings. |
| `Profile.SentFor` | src/pages/Profile.tsx:79-85 | The upsert carries the user id and exactly the buffer's display name and bio. |
| `Profile.Upserted` | src/pages/Profile.tsx:79-85 | The stored row holds the sent fields. An existing row of the same user keeps its id, avatar and creation time. |
| `Profile.SavedBufferComesBack` | src/pages/Profile.tsx:62-98 | After a save and a refetch, the buffer holds exactly what was typed, empty fields included. |
| `Profile.SaveTwiceSameDisplay` | src/pages/Profile.tsx:79-98 | Saving the same buffer twice keeps the row's identity and the buffer it fills. |
| `Profile.Title` | src/pages/Profile.tsx:163 | The title is never empty. It is the display name when there is one, and "Anonymous User" otherwise. |
| `Profile.Upper` | src/pages/Profile.tsx:159 | ASCII lower-case letters map to their capitals. Every other character is unchanged. |
| `Profile.AvatarInitial` | src/pages/Profile.tsx:159 | The initial is at most one character and never a lower-case letter. It is the capital of the name's first character, or, when the name is empty, of the e-mail's first character. It is empty exactly when neither has one. |
| `Profile.IdPrefix` | src/pages/Profile.tsx:180 | The shown id is the id's prefix of length min(8, length of the id). |
| `Profile.AvatarSource` | src/pages/Profile.tsx:157 | The avatar source is the stored URL, or "" when there is no profile or no URL. |
| `Profile.SaveButtonFor` | src/pages/Profile.tsx:236-242 | The save button is disabled exactly while saving, and then reads "Saving...". |
| `Profile.Render` | src/pages/Profile.tsx:116-248 | The page shows a spinner exactly while loading. The form shows the edit buffer, not the persisted row, with the title, initial, avatar and id fallbacks. |
| `Profile.ProfilePage.constructor` | src/pages/Profile.tsx:30-34 | The page starts with no profile, an empty buffer, loading on and saving off. |
| `Profile.ProfilePage.FetchProfile` | src/pages/Profile.tsx:45-72 | A delivered row becomes the profile and fills the buffer. Any other outcome leaves the profile and the buffer unchanged. Loading is off on every path when there is a user. With no user, nothing changes. |
| `Profile.ProfilePage.EditDisplayName` | src/pages/Profile.tsx:202 | Typing sets the display name and changes nothing else. |
| `Profile.ProfilePage.EditBio` | src/pages/Profile.tsx:213 | Typing sets the bio and changes nothing else. |
| `Profile.ProfilePage.BeginSave` | src/pages/Profile.tsx:74-85 | With a user, the buffer is sent under the user's id and saving is on. With no user, nothing is sent. The row and the buffer are unchanged. |
| `Profile.ProfilePage.FinishSave` | src/pages/Profile.tsx:87-108 | A refetch is requested exactly when the write was accepted. On every path saving is off and the row and the buffer are unchanged. |
| `Profile.ProfilePage.Save` | src/pages/Profile.tsx:74-109 | The whole save sends the old buffer and requests a refetch exactly on success. A failed save touches neither the buffer nor the profile. |
| `Profile.ProfilePage.Reset` | src/pages/Profile.tsx:245-248 | The buffer goes back to the profile's fields, or "" where they are missing. The profile is unchanged. |
| `MainSidebar.Toggled` | src/components/MainSidebar.tsx:72 | A header click collapses the section exactly when it was active. Otherwise that section becomes active. |
| `MainSidebar.ToggleTwice` | src/components/MainSidebar.tsx:72 | Two clicks on a header restore the state when nothing or that section was active. |
| `MainSidebar.ToggleTwiceFromOther` | src/components/MainSidebar.tsx:72 | With another section active, two clicks leave no section active. |
| `MainSidebar.ToggleTwiceRestores` | src/components/MainSidebar.tsx:26-72 | In every state the sidebar can reach (it lists one section), two clicks on the header restore the state. |
| `MainSidebar.RenderSection` | src/components/MainSidebar.tsx:62-95 | A section's tool list is shown exactly when the section is active. A tool is highlighted exactly when its name equals the selected tool. |
| `MainSidebar.Render` | src/components/MainSidebar.tsx:61-100 | The sidebar renders one view per listed section, in order. |
| `MainSidebar.AtMostOneHighlighted` | src/components/MainSidebar.tsx:86 | When tool names are distinct, at most one tool button is highlighted. |
| `MainSidebar.Sidebar.constructor` | src/components/MainSidebar.tsx:40-41 | The sidebar starts with "File Operations" expanded and no tool selected. |
| `MainSidebar.Sidebar.ClickSection` | src/components/MainSidebar.tsx:72 | The expanded section is toggled, and the selected tool is unchanged. |
| `MainSidebar.Sidebar.ClickTool` | src/components/MainSidebar.tsx:90 | A tool can be clicked only while its section is expanded (src/components/MainSidebar.tsx:78). The selected tool becomes the clicked tool's name, and the expanded section is unchanged. |
| `Editor.Gate` | src/pages/Editor.tsx:11-31 | While loading: a spinner and no redirect. When loaded with no user: a redirect to `/auth` and nothing rendered. When loaded with a user: the editor layout and no redirect. |
| `Editor.WorkspaceIffSignedIn` | src/pages/Editor.tsx:16-31 | The editor layout shows exactly when loading is over and a user is present. |
| `Editor.RedirectIffAnonymous` | src/pages/Editor.tsx:11-29 | The route redirects exactly when loading is over with no user. A redirect never comes with editor content. |
| `Editor.PagesRedirectWhileProviderLoads` | src/pages/Editor.tsx:11-13 | While the provider is loading with no user, the editor does not redirect but the profile and settings pages' mount effect does. |

## Left out

- The database client and the auth provider are foreign code. Their calls
  become inputs: `Option<User>`, `ReadResult`, `WriteResult`. `Profile.Upserted`
  is a model of the store's insert-or-update keyed by user id, not code of
  this repository. Sign-out is not modelled.
- Toasts and `console.error` are side effects with no state, so they are left
  out. `navigate` is returned as a value only.
- Async interleaving is left out: each handler is one atomic step. This
  omits the stale `preferences` closure when changes come in quick
  succession, the refetch that `handleSave` does not await, and the missing
  cancellation on unmount. `Profile.ProfilePage.FinishSave` and `Save` return
  a refetch request instead of running the fetch.
- The stored preferences object is untyped in the source. The model treats
  it as a record of optional, correctly typed fields, so extra keys, nulls
  and wrong-typed values are not modelled. Arrays count as objects there and
  are not modelled either.
- `Profile.Upper`: upper-casing is modelled on ASCII letters only. Full
  Unicode case mapping (which can change a character's length) is not
  modelled.
- `Profile.AvatarInitial`: strings are sequences of characters, so `charAt(0)`
  taking one UTF-16 code unit (half of a surrogate pair) is not modelled.
- The "Joined" date depends on the locale of `toLocaleDateString`, so it is
  left out.
- Styling, icons, the static about page, the mini toolbar's logging stub and
  the layout composition have no logic to verify, so they are left out.
- The rotate and fit-to-screen buttons and the sidebar's quick-action
  buttons have no handlers, so there is nothing to model.
