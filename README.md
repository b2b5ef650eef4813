# Visualizador Kinético — verified model of the app's logic

Visualizador Kinético is a mobile app where users photograph "cosas lindas"
and "cosas feas", browse the confirmed photos in a gallery driven by tilting
the phone, vote once per photo and see per-category leaderboards. This Dafny
project models the logic under the screens:

- `orientation.dfy` — the orientation hook (`useOrientation`): the priority
  chain that turns an accelerometer sample into `vertical`, `rightTilt`,
  `leftTilt` or `horizontal`, the 500 ms tilt hold after a vertical reading,
  change-only publishing, and the `isInitialRender` settling flag with its
  1000 ms timer.
- `gallery.dfy` — the sensor gallery: the index state machine driven by
  orientation labels, the loading flag, and the vote button guard.
- `imgmanager.dfy` — the `imgManager` singleton: the list of taken photos,
  the storage name of an upload, the record written for a confirmed photo,
  and the body of the `voteForPhoto` transaction over the photo vote counts
  and the per-user vote ledgers.
- `login.dfy` — the email and password checks of the login screen (the email
  regular expression is implemented as a one-pass scanner proved equal to the
  regular expression's meaning), the guard order of `handleLogin`, and the
  login button's disabled condition.
- `cosasfeas.dfy` — the "Cosas Feas" screen: the local vote count update,
  confirming the pending photos (upload and record each, clear only when all
  succeed), rejecting them, and what the screen shows.
- `misfotos.dfy` — the "Mis Fotos" screen: per-photo `imageLoading` flags and
  the list / empty message / spinner choice.
- `photocontext.dfy` — the temporary image list of the photo context.
- `photostats.dfy` — the leaderboard panel: documents to chart points, the
  selected point and the panel title.
- `common.dfy` — `Option`, JavaScript truthiness of optional strings, and
  `split(sep)[0]`.

Sensor readings are `real`, times are integer milliseconds passed in by the
caller (`Date.now()`), and every call to Firebase (queries, storage uploads,
document writes, the transaction's availability) is a parameter that carries
its result, with `None` or a dedicated value for "it threw".

Behaviour worth knowing that the model follows from the code:

- Settling does not simply end one second after mounting. The hook's effect
  depends on `orientation`, so every label change clears the pending settling
  timer and arms a new one; `isInitialRender` turns false only after 1000 ms
  without a label change (`Orientation.SettlingEndsOnlyByTimer`).
- `voteForPhoto` reports a missing photo, a repeated vote and a store error
  all as `false`. The model keeps the reason (`ImgManager.VoteResult`), and
  `VoteStore.VoteForPhoto` returns the boolean.
- The gallery does not clamp its index when its parent passes a new photo
  list, so the index may point past the end; the render and `handleVote`
  guards (`photos[currentIndex] && …`) then show nothing and vote for nothing
  (`Gallery.Shown`, `Gallery.SensorGallery.HandleVote`).
- `saveImageUrlToFirestore` throws a TypeError for a user with neither a
  display name nor an email (`user.email.split`), before writing anything
  (`ImgManager.UserName`, `ImgManager.RecordFor`).
- In `handleConfirmImage`, a failure part-way leaves the earlier photos'
  records written while the pending list stays whole
  (`CosasFeas.FailureKeepsEarlierRecords`); a photo with an empty path is
  skipped without failing.
- On "Mis Fotos", a user without an email never leaves the loading spinner:
  the fetch returns before the `finally` that clears it.

## Model

| member | source | states |
|---|---|---|
| `Common.BeforeFirst` | src/screens/stats/photo-stats.js:47 | `split(sep)[0]` is the longest prefix without `sep`: it has no `sep` and is the whole string or is followed by `sep` |
| `Orientation.Classify` | src/components/useOrientation.js:22-31 | rules in priority order: `\|y\|>7` gives vertical whatever x and z; a tilt fires only with `\|y\|<=7`, `\|x\|>3` and more than 500 ms since the last vertical reading, right iff x>0; horizontal only when neither fired and `\|z\|>8`; otherwise the current label is kept; a tilt never appears within 500 ms of a vertical reading |
| `Orientation.Initial` | src/components/useOrientation.js:9-11 | the hook starts horizontal, settling, with last vertical time 0 |
| `Orientation.AfterSample` | src/components/useOrientation.js:18-46 | one sample sets the label to the classification, refreshes the last vertical time on every vertical reading (even when already vertical), never touches the settling flag, and re-arms the settling timer exactly when the label changes |
| `Orientation.AfterTick` | src/components/useOrientation.js:51-53 | the timer clears the settling flag once 1000 ms have passed since it was armed, and changes nothing else |
| `Orientation.NoTiltAfterVertical` | src/components/useOrientation.js:22-26 | hysteresis: after a vertical reading at t, no sample up to t+500 ms yields a tilt, whatever samples and timer ticks came in between |
| `Orientation.NoTiltWithinHoldFrom` | src/components/useOrientation.js:22-31 | from a non-tilt label whose last vertical reading is no earlier than t, samples up to t+500 ms, mixed with any timer ticks, keep the label non-tilt |
| `Orientation.SettledStaysSettled` | src/components/useOrientation.js:51-53 | once `isInitialRender` is false no event sets it back to true |
| `Orientation.SettlingEndsOnlyByTimer` | src/components/useOrientation.js:51-59 | settling ends only through a timer tick at least 1000 ms after the timer was last armed |
| `Orientation.Tracker.constructor` | src/components/useOrientation.js:9-11 | a mounted hook is in the initial state |
| `Orientation.Tracker.OnSample` | src/components/useOrientation.js:18-46 | the subscription callback updates the fields as `AfterSample` says and publishes iff the label changed |
| `Orientation.Tracker.OnTick` | src/components/useOrientation.js:51-53 | the timer callback updates the fields as `AfterTick` says |
| `Gallery.PrevIndex` | src/components/sensor-gallery.js:30-34 | `(i-1+n)%n` stays in `[0,n)`; from 0 it wraps to n-1, otherwise it is i-1 |
| `Gallery.NextIndex` | src/components/sensor-gallery.js:35-38 | `(i+1)%n` stays in `[0,n)`; from n-1 it wraps to 0, otherwise it is i+1 |
| `Gallery.TiltsAreInverse` | src/components/sensor-gallery.js:30-38 | previous and next undo each other on every index in range |
| `Gallery.Mounted` | src/components/sensor-gallery.js:21-24 | the gallery mounts at index 0, loading, with no label handled |
| `Gallery.React` | src/components/sensor-gallery.js:26-49 | while settling or for the last handled label nothing changes; otherwise the label is recorded, right tilt goes back, left tilt goes forward, horizontal resets to 0, vertical keeps index and loading flag; the flag is never lowered and is raised by every move; indices stay in range |
| `Gallery.TiltThereAndBack` | src/components/sensor-gallery.js:30-38 | a left tilt then a right tilt, or the reverse, returns to the starting photo |
| `Gallery.ResetIsIdempotent` | src/components/sensor-gallery.js:40-42 | a repeated horizontal changes nothing, and horizontal after any other label lands on 0 again |
| `Gallery.Replay` | src/components/sensor-gallery.js:26-49 | over any stream of updates the index stays in range and a raised loading flag stays raised |
| `Gallery.SettlingSuppressesAll` | src/components/sensor-gallery.js:27 | updates received while settling leave the gallery exactly as it was |
| `Gallery.Shown` | src/components/sensor-gallery.js:93-95 | a photo is shown iff the index is inside the list; an empty list shows nothing |
| `Gallery.SensorGallery.constructor` | src/components/sensor-gallery.js:20-24 | a gallery mounted with a non-empty list starts in the mounted view |
| `Gallery.SensorGallery.OnOrientation` | src/components/sensor-gallery.js:26-49 | the effect updates index, loading flag and last label as `React` says, and keeps the list |
| `Gallery.SensorGallery.HandleImageLoad` | src/components/sensor-gallery.js:51-53 | the load callback lowers the loading flag and changes nothing else |
| `Gallery.SensorGallery.SetPhotos` | src/components/sensor-gallery.js:20-49 | a new list from the parent replaces the photos and leaves index, flag and last label as they were |
| `Gallery.SensorGallery.HandleVote` | src/components/sensor-gallery.js:55-59 | `onVote` gets exactly the id of the photo at the current index, and only when `onVote` is given and that photo exists |
| `ImgManager.LastSlash` | src/functions/imgManager.js:53 | `lastIndexOf('/')`: a slash position with no slash after it, or -1 when there is none |
| `ImgManager.FileName` | src/functions/imgManager.js:53 | the file name is a suffix with no slash that is the whole URI or follows a slash |
| `ImgManager.FileNameSplitsPath` | src/functions/imgManager.js:53 | directory part plus file name gives the URI back |
| `ImgManager.UploadTarget` | src/functions/imgManager.js:47-54 | nothing is uploaded for an empty or absent URI; otherwise the storage path is `/images/` plus the file name |
| `ImgManager.Decimal` | src/functions/imgManager.js:33 | the timestamp is written as a non-empty string of decimal digits, without a leading zero, that denotes exactly the timestamp |
| `ImgManager.LocalPath` | src/functions/imgManager.js:33-34 | a taken photo moves to the caches directory, then a slash, then `photo_<now>.jpg` |
| `ImgManager.FileNameAfterSlash` | src/functions/imgManager.js:53 | a slash-free name after a slash is exactly what the file name extraction returns |
| `ImgManager.GeneratedNameHasNoSlash` | src/functions/imgManager.js:33 | the generated name `photo_<now>.jpg` contains no slash |
| `ImgManager.TakenPhotoUploadTarget` | src/functions/imgManager.js:33-54 | a photo taken at time `now` is uploaded to `/images/photo_<now>.jpg` |
| `ImgManager.UserName` | src/functions/imgManager.js:78 | display name if truthy; else the email part before the first `@` when it is non-empty; else `Usuario`; never empty; a TypeError exactly when there is neither a display name nor an email |
| `ImgManager.RecordFor` | src/functions/imgManager.js:68-83 | nothing is written without a URL or a user; a missing name throws; otherwise the record has the URL, `votes` 0, the given `estado`/`tipo`, the user name, and the email or `Usuario desconocido` |
| `ImgManager.DefaultRecordIsConfirmedLinda` | src/functions/imgManager.js:68 | with the defaults the record is `confirmada` and `linda` |
| `ImgManager.Manager.constructor` | src/functions/imgManager.js:9-11 | no camera and no photos at start |
| `ImgManager.Manager.SetCameraRef` | src/functions/imgManager.js:13-15 | sets the camera and keeps the list |
| `ImgManager.Manager.ClearPhotos` | src/functions/imgManager.js:17-19 | the list becomes empty |
| `ImgManager.Manager.TakePhoto` | src/functions/imgManager.js:21-45 | without a camera nothing changes and undefined is returned; a taken photo, with its path replaced by the cache path, is appended at the end; a throw appends nothing |
| `ImgManager.Vote` | src/functions/imgManager.js:92-130 | succeeds iff the store is reachable, the photo exists and the user (missing ledger = empty set) has not voted for it; on success the count rises by exactly 1 and the photo joins the user's set; otherwise nothing changes |
| `ImgManager.VoteTwice` | src/functions/imgManager.js:109-121 | the same pair twice: success then refusal, net +1 |
| `ImgManager.DistinctVoters` | src/functions/imgManager.js:114-121 | two new voters both succeed, net +2 |
| `ImgManager.VoteFrame` | src/functions/imgManager.js:114-121 | other photos' counts and other users' sets are untouched, and the voter keeps earlier entries |
| `ImgManager.VotersAfterVote` | src/functions/imgManager.js:119-121 | a successful vote adds the user to the voters of that photo and of no other |
| `ImgManager.VoteStepVoters` | src/functions/imgManager.js:109-121 | one transaction raises a count by exactly the number of voters it adds to that photo (0 or 1) |
| `ImgManager.CountEqualsNewVoters` | src/functions/imgManager.js:106-121 | at most once per pair: over any sequence of transactions, a count grows by exactly the number of distinct users newly recorded as its voters |
| `ImgManager.VoteStore.constructor` | src/functions/imgManager.js:93-94 | the store holds the given photo counts and user vote ledgers |
| `ImgManager.VoteStore.VoteForPhoto` | src/functions/imgManager.js:92-130 | the transaction body changes both maps as `Vote` says and returns true iff it committed |
| `Login.IsValidEmail` | src/screens/login/login.js:61 | the scanner accepts exactly the strings where `\S+@\S+\.\S+` matches somewhere; the regular expression's meaning is the reference definition `Login.RegexMatches`, built on `Login.MatchAt` (non-space run, `@`, non-space run, `.`, non-space run, at some position) |
| `Login.ScanMeaning` | src/screens/login/login.js:61 | each scanner flag means the read text ends at that point of the pattern |
| `Login.ShortMatchSuffices` | src/screens/login/login.js:61 | a match exists iff one with one character before `@` and one after `.` exists |
| `Login.IsValidPassword` | src/screens/login/login.js:62 | valid iff at least 6 characters |
| `Login.NoAtNoEmail` | src/screens/login/login.js:61 | a string without `@` is never a valid email |
| `Login.ValidEmailShape` | src/screens/login/login.js:61 | a valid email has an `@` after a non-space character and, after one more non-space run, a `.` that is not last |
| `Login.SurroundingTextKeepsValid` | src/screens/login/login.js:61 | unanchored: text before and after a valid address keeps it valid |
| `Login.Examples` | src/screens/login/login.js:61 | `a@b.c` passes and `a@.c` fails |
| `Login.HandleLogin` | src/screens/login/login.js:65-81 | the email is checked first and a bad email is reported whatever the password; sign-in happens iff both checks pass |
| `Login.LoginDisabled` | src/screens/login/login.js:138-143 | the button is enabled iff email and password are non-empty and no request is running |
| `Login.PassingInputsEnableButton` | src/screens/login/login.js:138-143 | inputs that pass both checks leave the button enabled when idle |
| `Login.EnabledButtonCanStillReject` | src/screens/login/login.js:65-81 | the button checks only that the fields are filled: it is enabled for `a` / `123456`, which the handler rejects for its email |
| `CosasFeas.WithLocalVote` | src/screens/cosasFeas/cosasFeas.js:119-121 | same length and order; the matching images show `(votes or 0) + 1`, every other image is unchanged |
| `CosasFeas.AfterVote` | src/screens/cosasFeas/cosasFeas.js:114-126 | a failed vote leaves the list unchanged |
| `CosasFeas.LocalVoteMirrorsStore` | src/screens/cosasFeas/cosasFeas.js:114-122 | listed counts that agreed with the store still agree after the vote, whatever its outcome |
| `CosasFeas.ConfirmOne` | src/screens/cosasFeas/cosasFeas.js:70-78 | a photo without a path is skipped; otherwise the step fails iff the upload throws, or the URL is non-empty, the user is present and has no name or the add fails; an empty URL or missing user is a skipped save; a written record is confirmed, of the screen's kind, with 0 votes and the uploaded URL; the record written is exactly the one the manager builds for that URL and user (owner email, fallback name) |
| `CosasFeas.ConfirmAll` | src/screens/cosasFeas/cosasFeas.js:70-78 | every record the loop writes is confirmed, of the screen's kind, with 0 votes; no more records than photos |
| `CosasFeas.ConfirmedRecordsBelongToUser` | src/screens/cosasFeas/cosasFeas.js:72-77 | every written record belongs to the signed-in user: owner is the email or `Usuario desconocido`, name is the user's fallback name; a record is only written for a user who has one |
| `CosasFeas.ConfirmAllOkIffNoFailure` | src/screens/cosasFeas/cosasFeas.js:67-99 | the loop gets through (and the pending photos are then cleared) iff no photo's step fails: any failed upload or save keeps the list |
| `CosasFeas.AllGoodWritesEveryPhoto` | src/screens/cosasFeas/cosasFeas.js:70-78 | when all uploads and writes succeed, one record per photo is written in order with its own URL |
| `CosasFeas.FailureKeepsEarlierRecords` | src/screens/cosasFeas/cosasFeas.js:70-99 | on failure there is a failing photo i, and the records left written are exactly those the photos before i write |
| `CosasFeas.UploadAll` | src/screens/cosasFeas/cosasFeas.js:70-78 | the loop writes the records of `ConfirmAll` and reports whether it got through every photo |
| `CosasFeas.BodyOf` | src/screens/cosasFeas/cosasFeas.js:157-219 | exactly one of: spinner iff loading; preview of the pending photos iff not loading and some are pending; the listing iff not loading, none pending and some confirmed; the "first to upload" message iff not loading and both lists empty |
| `CosasFeas.CameraButtonShown` | src/screens/cosasFeas/cosasFeas.js:180-226 | the camera button is drawn iff loading is over and no photo is pending |
| `CosasFeas.CameraXorPreview` | src/screens/cosasFeas/cosasFeas.js:180-226 | the camera button is shown iff the preview is not |
| `CosasFeas.FeasScreen.constructor` | src/screens/cosasFeas/cosasFeas.js:33-35 | the screen starts loading with empty lists |
| `CosasFeas.FeasScreen.OnFocus` | src/screens/cosasFeas/cosasFeas.js:38-65 | a fetch replaces the listing and shows the manager's pending photos; a failed fetch keeps both; loading ends either way |
| `CosasFeas.FeasScreen.HandleConfirmImage` | src/screens/cosasFeas/cosasFeas.js:67-102 | clears the manager's list and the preview only when every photo went through; any failure keeps both; the listing is replaced by a successful refetch only |
| `CosasFeas.FeasScreen.HandleRejectImage` | src/screens/cosasFeas/cosasFeas.js:104-108 | empties the manager's list and the preview |
| `CosasFeas.FeasScreen.HandleVote` | src/screens/cosasFeas/cosasFeas.js:114-126 | runs the transaction and bumps the local count only on success |
| `MisFotos.FromDocs` | src/screens/misFotos/misFotos.js:36-40 | same documents in the same order, each starting with `imageLoading` true |
| `MisFotos.MarkLoaded` | src/screens/misFotos/misFotos.js:56-62 | same documents in the same order; an item's flag is cleared iff its id matches, others keep theirs |
| `MisFotos.MarkLoadedIdempotent` | src/screens/misFotos/misFotos.js:57-61 | marking the same id twice equals marking it once |
| `MisFotos.MarkLoadedCommutes` | src/screens/misFotos/misFotos.js:57-61 | loads of two photos give the same list in either order |
| `MisFotos.DisplayOf` | src/screens/misFotos/misFotos.js:100-123 | the list iff loaded and non-empty; the message iff loaded, empty and the message flag is set; otherwise a spinner |
| `MisFotos.MisFotosScreen.constructor` | src/screens/misFotos/misFotos.js:20-22 | no photos, loading, no message |
| `MisFotos.MisFotosScreen.Fetch` | src/screens/misFotos/misFotos.js:25-54 | without an email nothing happens; otherwise the fetched photos (if any) replace the list, loading ends and the message timer is armed |
| `MisFotos.MisFotosScreen.OnMessageTimer` | src/screens/misFotos/misFotos.js:47-49 | the armed timer turns the empty message on |
| `MisFotos.MisFotosScreen.HandleImageLoad` | src/screens/misFotos/misFotos.js:56-62 | the list becomes `MarkLoaded` of the previous list |
| `PhotoContext.Provider.constructor` | src/utils/photo.context.js:6 | the temporary list starts empty |
| `PhotoContext.Provider.AddPhoto` | src/utils/photo.context.js:8-10 | one more image at the end, earlier images unchanged and in order |
| `PhotoContext.Provider.ClearPhotos` | src/utils/photo.context.js:12-14 | the list becomes empty (so clearing twice equals clearing once) |
| `PhotoStats.PointOf` | src/screens/stats/photo-stats.js:42-49 | x is the user name up to the first space (no space in it, possibly empty); y is the votes or 0; the document is kept |
| `PhotoStats.ToPoints` | src/screens/stats/photo-stats.js:42-56 | points exist iff every document has a user name; then one point per document, same order |
| `PhotoStats.LeadingSpaceEmptyLabel` | src/screens/stats/photo-stats.js:47 | a user name starting with a space gives an empty label |
| `PhotoStats.Title` | src/screens/stats/photo-stats.js:73-75 | `Lindas` iff the kind is `linda`, else `Feas` |
| `PhotoStats.TitleTellsPanelsApart` | src/screens/stats/photo-stats.js:73-75 | the title tells the panels apart: it equals the `linda` panel's title iff the kind is `linda` |
| `PhotoStats.StatsPanel.constructor` | src/screens/stats/photo-stats.js:25-27 | no data, nothing selected, not loading |
| `PhotoStats.StatsPanel.FetchTopPhotos` | src/screens/stats/photo-stats.js:33-57 | a successful fetch and mapping replaces the data; a throw in either keeps it |
| `PhotoStats.StatsPanel.HandleSelectDataPoint` | src/screens/stats/photo-stats.js:59-65 | selects `datum.datum` when present, else `datum`, which opens the modal |
| `PhotoStats.StatsPanel.CloseModal` | src/screens/stats/photo-stats.js:67-69 | nothing selected, so the modal is hidden |
| `PhotoStats.StatsPanel.ModalVisible` | src/screens/stats/photo-stats.js:140 | the details modal is visible iff a point is selected |

## Left out

- Firebase: queries, `add`, `putFile`/`getDownloadURL`, sign-in and the transaction's reads and writes are foreign calls; their results are parameters (`fetched`, `uploads`, `saves`, `storeUp`).
- Atomicity and isolation of `runTransaction` across devices: the transaction body is one sequential step; concurrent voters are modelled only as transactions in some order (`ImgManager.CountEqualsNewVoters`).
- Sensor subscription, the 100 ms update interval and unsubscribing on unmount are platform plumbing; samples and timer ticks are explicit events.
- Orientation.Tracker.OnSample: assumes each sample sees the latest label; between `setOrientation` and the effect's re-subscription the old callback may still compare against the previous label, a React scheduling detail not modelled.
- Accelerometer values are IEEE doubles in the app; only threshold comparisons are made, so they are `real` here.
- Gallery: an empty photo list is never mounted by its caller; the effect would compute a NaN index for it, which the model does not represent (the constructor and `SetPhotos` require a non-empty list).
- Login.IsValidPassword: counts Unicode characters, whereas JavaScript's `length` counts UTF-16 code units, so the two differ for characters outside the Basic Multilingual Plane.
- Login.IsValidEmail: the same difference in character model applies to `\S` on surrogate pairs.
- CosasFeas.FeasScreen.HandleVote: takes the user id directly; a missing user (`user.uid` on null) would throw in the app.
- The list of taken photos changing while `handleConfirmImage` awaits its uploads is not modelled.
- The "Cosas Lindas" screen (which mounts the gallery and repeats the confirm/reject logic), the camera screen, registration, navigation, toasts, console logging, styles, `Dimensions`-based layout, date formatting and chart rendering are outside the modelled core.
- ImgManager.Vote: the app looks the photo id up in a plain JavaScript object, so ids such as `constructor` or `__proto__` would read as already voted; the model's map does not, and store-generated ids never take those values.
- The `orderBy('votes','desc').limit(5)` ranking is done by the store and is not modelled.
- `requestPermissions` and the camera permission dialog are platform calls.
