# SpotifyLikePlayer core, modelled in Dafny

This project models the core of SpotifyLikePlayer, a WPF desktop music
player. It covers the following parts:

- **Playback service** (`MediaPlayerService`). This is one media engine, the
  list it plays from, a current index, the playing and paused flags, and a
  stored position and volume.
- **A song's two favourite flags** (`Song.IsFavorite`, `Song.IsFavoriteLocal`)
  and the change notifications they raise.
- **Main window's view model** (`MainViewModel`):
  - loading the library;
  - the home view;
  - add-to-favourites;
  - starting playback of the selection;
  - the play/pause toggle;
  - the "previous or restart" rule;
  - the search filter;
  - importing a music folder.
- **Administrator's preview player** (`AdminPanelWindow`). It holds a
  temporary playlist of pending submissions and shares one player between
  the list double-clicks, the play/pause button and the seek slider.
- **Form windows**: the profile editor, registration, password reset, the
  track-submission form and the login window. Login also covers the
  application-wide slot that remembers the open login window.

| file | module | models |
|---|---|---|
| prelude.dfy | `Prelude` | nullable values, bytes, the Unicode tables, `Trim`, `IndexOf`, the unchecked `uint`→`int` cast |
| models.dfy | `Models` | `Song` (a class) with its favourite flags; `User`, `Playlist` and `Submission` records |
| media_player.dfy | `Playback` | `MediaPlayerService`, proved against pure transition functions |
| main_view_model.dfy | `ViewModel` | `MainViewModel` |
| admin_panel.dfy | `Admin` | `AdminPanelWindow` |
| email_patterns.dfy | `EmailPatterns` | the two email regular expressions, each as the language it denotes plus a linear decision procedure |
| profile_window.dfy | `Profile` | `ProfileWindow` |
| register_window.dfy | `Registration` | `RegisterWindow` |
| forgot_password_window.dfy | `PasswordReset` | `ForgotPasswordWindow` |
| submit_music_request_window.dfy | `SubmitRequest` | `SubmitMusicRequestWindow` |
| login_window.dfy | `Login` | `LoginWindow` and `App.CurrentLoginWindow` |

## How it is modelled

**Objects whose fields change become classes.** Each method ties the new
state to a pure function of the old one (`ensures State() ==
Played(old(State()), ...)`). Those classes are `MediaPlayerService`,
`Song`, `MainViewModel`, `AdminPanel` and the window classes. The
properties are then proved as lemmas about the pure functions.

**Collaborators become parameters:**

- database queries are replies (`Fetched` is rows, null or an exception);
- the tag reader, the file system, BCrypt, the image decoder and the
  service calls are function values;
- the clock and the engine position are plain values.

Nothing calls into code the model cannot see.

**Unicode classes.** .NET's `\w` and `\s` classes and its ordinal
case-insensitive comparison are abstract tables (`CharTables`). The regex
proofs assume only what .NET guarantees:

- '@' and '.' are neither word characters nor white space;
- '-' is not white space;
- no word character is white space.

**String lengths.** Strings are sequences of Unicode scalar values. .NET
strings are UTF-16, so where the code takes `Length` (the password gates),
the model counts code units with `Utf16Length`: a character beyond U+FFFF
counts twice.

**Playback positions and volumes** are `real`s that are only stored,
compared and passed on. No floating-point claim is made about them.

**Where the code differs from what the application's design leads one to
expect, the model follows the code:**

- `PlayNext`/`PlayPrevious` neither wrap nor shuffle, and there is no
  repeat mode.
- The end of a track only calls `PlayNext`. At the last track the playing
  flag stays set.
- The render tick republishes the position on every frame with no
  threshold.
- There is no guard against re-entering the position setter.
- Setting `IsFavorite` to the value it already has returns early. So
  after the write, `IsFavoriteLocal` need not equal the new value
  (`Models.DivergedLocalSurvivesSameValueWrite`).
- .NET's `$` also matches just before a final '\n'. Both email patterns
  therefore accept an address followed by one newline.

## Model

| member | source | states |
|---|---|---|
| Prelude.IndexOf | SpotifyLikePlayer/ViewModels/MainViewModel.cs:160 | `Collection.IndexOf` by reference: -1 exactly when the item is absent, otherwise the position of its first occurrence |
| Prelude.TrimmedBlankIsEmpty | SpotifyLikePlayer/Views/ProfileWindow.xaml.cs:159-168 | after `Trim()`, `IsNullOrWhiteSpace` holds exactly when the text is empty |
| Prelude.TrimEmptyIffBlank | SpotifyLikePlayer/Views/ProfileWindow.xaml.cs:159-168 | `Trim()` leaves nothing exactly when the text was blank |
| Prelude.TrimIdempotent | SpotifyLikePlayer/Views/ProfileWindow.xaml.cs:159-162 | trimming twice is trimming once |
| Prelude.Utf16Length | SpotifyLikePlayer/Views/LoginWindow.xaml.cs:88 | `String.Length` counts UTF-16 code units: between the character count and twice it, and zero only for the empty string |
| Prelude.Utf16LengthOfBmp | SpotifyLikePlayer/Views/LoginWindow.xaml.cs:88 | without characters beyond U+FFFF, `Length` is the character count |
| Prelude.Utf16LengthAppend | SpotifyLikePlayer/Views/LoginWindow.xaml.cs:88 | code-unit lengths add up over concatenation |
| Prelude.UIntToInt | SpotifyLikePlayer/ViewModels/MainViewModel.cs:264 | the unchecked `(int)` cast of a `uint`: congruent modulo 2^32, within the int range, negative exactly from 2^31 |
| Models.SetFavoriteSyncsLocal | SpotifyLikePlayer/Models/Song.cs:31-48 | a real change of `IsFavorite` sets both flags to the new value and notifies `IsFavorite`, then `IsFavoriteLocal` only if the local flag differed |
| Models.SetFavoriteSameValueIsSilent | SpotifyLikePlayer/Models/Song.cs:36 | writing the current value changes nothing and notifies nobody |
| Models.SetFavoriteResult | SpotifyLikePlayer/Models/Song.cs:31-48 | the stored flag always ends equal to the value written; the local flag does exactly when there was a change or it already agreed |
| Models.DivergedLocalSurvivesSameValueWrite | SpotifyLikePlayer/Models/Song.cs:36-40 | a local flag that diverged survives a write of the unchanged stored value |
| Models.SetLocalLeavesFavorite | SpotifyLikePlayer/Models/Song.cs:50-61 | `IsFavoriteLocal` changes only the local flag and notifies only itself, and only on a change |
| Models.ToggleTwiceRestores | SpotifyLikePlayer/Models/Song.cs:31-48 | toggling a synchronised pair twice restores both flags |
| Models.Song.constructor | SpotifyLikePlayer/Models/Song.cs:29-30 | a new song carries the given metadata; both flags false; no notifications |
| Models.Song.SetIsFavorite | SpotifyLikePlayer/Models/Song.cs:31-48 | the `IsFavorite` setter performs `SetFavorite` on the song's flags |
| Models.Song.SetIsFavoriteLocal | SpotifyLikePlayer/Models/Song.cs:50-61 | the `IsFavoriteLocal` setter performs `SetFavoriteLocal` on the song's flags |
| Playback.InitialConsistent | SpotifyLikePlayer/Services/MediaPlayerService.cs:18-24 | a fresh service keeps the invariant and has no current song |
| Playback.StepKeepsConsistent | SpotifyLikePlayer/Services/MediaPlayerService.cs:34-139 | every transition keeps the invariant: never playing and paused at once, the engine runs only while playing, and a loaded list or a playing/paused state has a source |
| Playback.RunKeepsConsistent | SpotifyLikePlayer/Services/MediaPlayerService.cs:44-101 | any sequence of commands keeps the invariant |
| Playback.CurrentSongIsLookup | SpotifyLikePlayer/Services/MediaPlayerService.cs:103-113 | `CurrentSong` is present exactly when the list exists and the index is inside it, and is then the song at the index |
| Playback.PlayedCurrentSong | SpotifyLikePlayer/Services/MediaPlayerService.cs:44-56 | `Play` with an index inside the list makes that song current; with any other index it still plays but has no current song |
| Playback.PauseResumeContract | SpotifyLikePlayer/Services/MediaPlayerService.cs:59-83 | Pause acts only while playing and captures the position; Resume acts only when paused and restarts from the stored position; pausing then resuming plays on from the captured position |
| Playback.SeekWhilePausedResumesThere | SpotifyLikePlayer/Services/MediaPlayerService.cs:34-139 | while paused the render tick changes nothing; a seek while paused is where Resume restarts; the volume setter touches only the volume, unclamped |
| Playback.SkipsStayInBounds | SpotifyLikePlayer/Services/MediaPlayerService.cs:85-101 | from a valid index, Next and Previous never fail, stay in bounds and move by exactly one unless at the end |
| Playback.EndOfListKeepsPlayingFlag | SpotifyLikePlayer/Services/MediaPlayerService.cs:30-92 | at the last track, the end of media stops only the engine; the service still reports playing |
| Playback.NextNeverWraps | SpotifyLikePlayer/Services/MediaPlayerService.cs:85-92 | n presses of Next from a valid index land on min(index + n, last) with that song current |
| Playback.PreviousStopsAtFirst | SpotifyLikePlayer/Services/MediaPlayerService.cs:94-101 | n presses of Previous land on max(index - n, 0) with that song current |
| Playback.MediaPlayerService.constructor | SpotifyLikePlayer/Services/MediaPlayerService.cs:24-32 | the service starts with nothing loaded and volume 0.5, in a state that satisfies the player's invariant |
| Playback.MediaPlayerService.Play | SpotifyLikePlayer/Services/MediaPlayerService.cs:44-57 | the new state is `Played`: list and index taken as given, the song's file opened at 0, playing |
| Playback.MediaPlayerService.Pause | SpotifyLikePlayer/Services/MediaPlayerService.cs:59-70 | the new state is `Paused` of the old one |
| Playback.MediaPlayerService.Resume | SpotifyLikePlayer/Services/MediaPlayerService.cs:72-83 | the new state is `Resumed` of the old one |
| Playback.MediaPlayerService.PlayNext | SpotifyLikePlayer/Services/MediaPlayerService.cs:85-92 | the new state and the result are `Next` of the old state |
| Playback.MediaPlayerService.PlayPrevious | SpotifyLikePlayer/Services/MediaPlayerService.cs:94-101 | the new state and the result are `Previous` of the old state |
| Playback.MediaPlayerService.SetPositionInSeconds | SpotifyLikePlayer/Services/MediaPlayerService.cs:116-128 | the setter takes effect only with a source open |
| Playback.MediaPlayerService.SetVolume | SpotifyLikePlayer/Services/MediaPlayerService.cs:130-139 | the volume is stored as given |
| Playback.MediaPlayerService.OnRendering | SpotifyLikePlayer/Services/MediaPlayerService.cs:34-42 | the position follows the engine only with a source open and while playing |
| Playback.MediaPlayerService.OnMediaEnded | SpotifyLikePlayer/Services/MediaPlayerService.cs:30 | the end of media stops the engine and runs `PlayNext` |
| ViewModel.LoadedListsShowLaterAdditions | SpotifyLikePlayer/ViewModels/MainViewModel.cs:56-70 | after a successful load (a null answer counts as empty), the displayed list is `Songs` itself, so songs added later are displayed too |
| ViewModel.FailedLoadHidesLaterAdditions | SpotifyLikePlayer/ViewModels/MainViewModel.cs:71-80 | after a failed load all three collections are empty, and the displayed one is separate from `Songs` |
| ViewModel.PreviousPressedContract | SpotifyLikePlayer/ViewModels/MainViewModel.cs:189-202 | under 10 seconds with an earlier track, the service steps back; otherwise the current song restarts from 0 at the same index of the same list; with no current song nothing happens |
| ViewModel.PreviousOnFirstTrackRestarts | SpotifyLikePlayer/ViewModels/MainViewModel.cs:189-202 | at index 0 Previous always restarts the current song from 0 |
| ViewModel.PreviousKeepsConsistent | SpotifyLikePlayer/ViewModels/MainViewModel.cs:189-202 | the Previous button keeps the player's invariant |
| ViewModel.IndexBySongId | SpotifyLikePlayer/ViewModels/MainViewModel.cs:180 | the first index whose song has the given id, or -1 exactly when none has it |
| ViewModel.ToggleContract | SpotifyLikePlayer/ViewModels/MainViewModel.cs:166-187 | playing: pause; paused with a current song: resume; else a current-or-selected song whose file exists starts at the first position in the list to use holding its id (-1 when none); a missing file, a failed reload or no selection leaves the player alone |
| ViewModel.ZeroIdsStartAtFirstSong | SpotifyLikePlayer/ViewModels/MainViewModel.cs:176-181 | imported songs keep id 0, so starting one opens its file while the list's first id-0 song is reported as current |
| ViewModel.PauseThenToggleResumes | SpotifyLikePlayer/ViewModels/MainViewModel.cs:166-187 | pause then toggle resumes the same song from the captured position |
| ViewModel.PausedWithoutCurrentSongStartsOver | SpotifyLikePlayer/ViewModels/MainViewModel.cs:166-187 | paused with no current song, the toggle starts the selected song from 0 |
| ViewModel.ToggleKeepsConsistent | SpotifyLikePlayer/ViewModels/MainViewModel.cs:166-187 | the toggle keeps the player's invariant |
| ViewModel.StartIndex | SpotifyLikePlayer/ViewModels/MainViewModel.cs:159-161 | the selected song's first position, or 0 when it is absent from a non-empty list, or -1 exactly when the list is empty |
| ViewModel.StartFallbackReportsFirstSong | SpotifyLikePlayer/ViewModels/MainViewModel.cs:155-164 | with the song absent, the selected file plays while `CurrentSong` reports the list's first song |
| ViewModel.StartOnEmptyListHasNoCurrentSong | SpotifyLikePlayer/ViewModels/MainViewModel.cs:155-164 | on an empty list the song plays with index -1 and no current song |
| ViewModel.SearchFilter | SpotifyLikePlayer/ViewModels/MainViewModel.cs:226-230 | keeps exactly the songs whose title, artist or genre contains the text ignoring case, in their order, as a subsequence |
| ViewModel.AudioSuffix | SpotifyLikePlayer/ViewModels/MainViewModel.cs:248-249 | an accepted file ends in a four-character extension with no separator or second dot in it |
| ViewModel.StemDropsAudioExtension | SpotifyLikePlayer/ViewModels/MainViewModel.cs:276 | the name without extension, plus the extension, is the file name |
| ViewModel.TrackDefaults | SpotifyLikePlayer/ViewModels/MainViewModel.cs:256-281 | null tags fall back to the file's stem, "Unknown Artist", "Without Album" and "Unknown"; the year goes through the unchecked cast |
| ViewModel.Imported | SpotifyLikePlayer/ViewModels/MainViewModel.cs:246-285 | every imported track comes from a listed file that is an .mp3/.wav, not yet known, with readable tags and a successful library write |
| ViewModel.ImportedStep | SpotifyLikePlayer/ViewModels/MainViewModel.cs:246-285 | one more file adds exactly its track, or nothing when it is filtered out |
| ViewModel.ImportedCoversAccepted | SpotifyLikePlayer/ViewModels/MainViewModel.cs:246-285 | every accepted file's track is imported |
| ViewModel.NewSong | SpotifyLikePlayer/ViewModels/MainViewModel.cs:283-285 | a fresh song with the track's title, path, genre and duration, id 0 and no artist |
| ViewModel.ImportFiles | SpotifyLikePlayer/ViewModels/MainViewModel.cs:246-292 | the loop builds one new song per imported track, in order |
| ViewModel.MainViewModel.constructor | SpotifyLikePlayer/ViewModels/MainViewModel.cs:24-54 | a fresh player, the collections of `LoadInitialData`, no selection, user id 1 |
| ViewModel.MainViewModel.LoadInitialData | SpotifyLikePlayer/ViewModels/MainViewModel.cs:56-81 | the three collections become `InitialLists` of the two replies; nothing else changes |
| ViewModel.MainViewModel.ShowHome | SpotifyLikePlayer/ViewModels/MainViewModel.cs:105-110 | clears the playlist selection and displays `Songs` itself |
| ViewModel.MainViewModel.AddToFavorite | SpotifyLikePlayer/ViewModels/MainViewModel.cs:83-103 | without a selection nothing happens; otherwise the favourites playlist is `Favorited`, written only when missing the song, and displayed when it is the selected playlist |
| ViewModel.MainViewModel.PlaySelectedSong | SpotifyLikePlayer/ViewModels/MainViewModel.cs:155-164 | plays the selection in the list to use at `StartIndex`; without a selection nothing happens |
| ViewModel.MainViewModel.TogglePlayPause | SpotifyLikePlayer/ViewModels/MainViewModel.cs:166-187 | the player's new state and the outcome are `Toggled` |
| ViewModel.MainViewModel.HandlePrevious | SpotifyLikePlayer/ViewModels/MainViewModel.cs:189-202 | the player's new state and the outcome are `PreviousPressed` |
| ViewModel.MainViewModel.SearchSongs | SpotifyLikePlayer/ViewModels/MainViewModel.cs:219-234 | empty text restores the playlist's or the library's songs, other text keeps `SearchFilter`; the displayed list is unchanged |
| ViewModel.MainViewModel.AddSongsFromDirectory | SpotifyLikePlayer/ViewModels/MainViewModel.cs:241-294 | a missing folder changes nothing; otherwise `Songs` gains, after its old contents, one song per imported track in order |
| ViewModel.FavoriteWritesOnlyMissing | SpotifyLikePlayer/ViewModels/MainViewModel.cs:83-103 | a write happens exactly when the favourites playlist lacks the song's id, and it is (playlist id, song id) |
| ViewModel.FavoriteIdempotent | SpotifyLikePlayer/ViewModels/MainViewModel.cs:83-103 | once the reload shows the song, adding it again writes nothing |
| ViewModel.NullReloadWritesAgain | SpotifyLikePlayer/ViewModels/MainViewModel.cs:98-101 | when the reload answers null, a second add writes the same pair again |
| Admin.SubmissionIndex | SpotifyLikePlayer/Views/AdminPanelWindow.xaml.cs:98-101 | the first temp song whose title and artist name both match, or -1 when none does |
| Admin.FoundSongIndexIsItsPosition | SpotifyLikePlayer/Views/AdminPanelWindow.xaml.cs:98-104 | looking the found song up again by reference yields the same index |
| Admin.Playable | SpotifyLikePlayer/Views/AdminPanelWindow.xaml.cs:246-263 | the kept submissions are those whose saved temp path is non-null and non-empty, in order, each with that path |
| Admin.PlayableStep | SpotifyLikePlayer/Views/AdminPanelWindow.xaml.cs:248-262 | one more submission adds exactly its pair, or nothing when its path is missing |
| Admin.PlayableCoversSaved | SpotifyLikePlayer/Views/AdminPanelWindow.xaml.cs:246-263 | every submission with a saved path is in the preview list |
| Admin.SubmissionSongIsFound | SpotifyLikePlayer/Views/AdminPanelWindow.xaml.cs:252-260 | a song built from a submission is found again by title and artist |
| Admin.NewTempSong | SpotifyLikePlayer/Views/AdminPanelWindow.xaml.cs:252-260 | a fresh song with the submission's title, artist and temp path, and duration zero |
| Admin.TempSongs | SpotifyLikePlayer/Views/AdminPanelWindow.xaml.cs:246-263 | the loop builds one new song per playable submission, in order |
| Admin.ButtonContract | SpotifyLikePlayer/Views/AdminPanelWindow.xaml.cs:156-183 | playing: pause; paused: resume; else the current song is replayed at its temp-list index if it is there, otherwise nothing; the invariant is kept |
| Admin.ButtonResumesWithoutCurrentSong | SpotifyLikePlayer/Views/AdminPanelWindow.xaml.cs:156-170 | paused even with no current song, the button resumes from the stored position |
| Admin.AdminPanel.constructor | SpotifyLikePlayer/Views/AdminPanelWindow.xaml.cs:46-56 | the submissions are loaded (before the player exists), then a fresh player; not dragging |
| Admin.AdminPanel.LoadAllSubmissions | SpotifyLikePlayer/Views/AdminPanelWindow.xaml.cs:225-244 | the three lists are replaced and the temp playlist is rebuilt from the pending ones only; a thrown query leaves every list and the temp playlist as they were |
| Admin.AdminPanel.AddSubmissionsToPlaylist | SpotifyLikePlayer/Views/AdminPanelWindow.xaml.cs:246-264 | appends one song per playable submission, in order, after the old ones |
| Admin.AdminPanel.PlaySubmission | SpotifyLikePlayer/Views/AdminPanelWindow.xaml.cs:96-115 | found exactly when a temp song matches; then it plays from the temp list at the first match; otherwise the player is untouched |
| Admin.AdminPanel.DoubleClick | SpotifyLikePlayer/Views/AdminPanelWindow.xaml.cs:78-94 | only a pending selection can start playback; approved and rejected ones never do |
| Admin.AdminPanel.PlayPauseButtonClick | SpotifyLikePlayer/Views/AdminPanelWindow.xaml.cs:156-183 | the player's new state is `ButtonPressed` |
| Admin.AdminPanel.DragStarted | SpotifyLikePlayer/Views/AdminPanelWindow.xaml.cs:58-61 | sets the dragging flag |
| Admin.AdminPanel.DragCompleted | SpotifyLikePlayer/Views/AdminPanelWindow.xaml.cs:63-68 | clears the flag, then hands back the slider value as the seek target |
| Admin.AdminPanel.SliderMoved | SpotifyLikePlayer/Views/AdminPanelWindow.xaml.cs:70-76 | the thumb sets the slider value; the `ValueChanged` handler changes nothing else |
| Admin.AdminPanel.DragTo | SpotifyLikePlayer/Views/AdminPanelWindow.xaml.cs:58-68 | a drag seeks to where the thumb was released, even when the player reported a new position during the drag |
| Admin.AdminPanel.OnPositionChanged | SpotifyLikePlayer/Views/AdminPanelWindow.xaml.cs:129-138 | while dragging, position updates do not move the slider |
| EmailPatterns.LabelEndsAtFirstDot | SpotifyLikePlayer/Views/RegisterWindow.xaml.cs:74 | a label cannot contain '.', so a label-plus-dot prefix ends at the first dot |
| EmailPatterns.DomainAcceptsExactly | SpotifyLikePlayer/Views/RegisterWindow.xaml.cs:74 | the linear domain check accepts exactly `([\w-]+\.)+[\w-]{2,4}` |
| EmailPatterns.LocalEndsAtFirstAt | SpotifyLikePlayer/Views/RegisterWindow.xaml.cs:74 | the local part holds no '@', so it ends at the first '@' |
| EmailPatterns.RegisterCoreAcceptsExactly | SpotifyLikePlayer/Views/RegisterWindow.xaml.cs:74 | the linear check accepts exactly `[\w-\.]+@([\w-]+\.)+[\w-]{2,4}` |
| EmailPatterns.RegisterEmailExactly | SpotifyLikePlayer/Views/RegisterWindow.xaml.cs:71-76 | `IsValidEmail` of registration holds exactly when `Regex.IsMatch` does, including before a final '\n' |
| EmailPatterns.DomainChars | SpotifyLikePlayer/Views/RegisterWindow.xaml.cs:74 | every character of a matched domain is a word character, '-' or '.' |
| EmailPatterns.RegisterCoreSingleAt | SpotifyLikePlayer/Views/RegisterWindow.xaml.cs:74 | a matched address has exactly one '@' |
| EmailPatterns.RegisterRejectsEmpty | SpotifyLikePlayer/Views/ForgotPasswordWindow.xaml.cs:63-67 | the empty string never matches |
| EmailPatterns.RunOfSlice | SpotifyLikePlayer/Views/ProfileWindow.xaml.cs:269 | a stretch of allowed characters is a `[^@\s]+` run |
| EmailPatterns.ProfileShapeExactly | SpotifyLikePlayer/Views/ProfileWindow.xaml.cs:269 | `^[^@\s]+@[^@\s]+\.[^@\s]+$` matches exactly: no white space, one '@' with text before it, and a '.' after it with text on both sides |
| EmailPatterns.ProfileEmailExactly | SpotifyLikePlayer/Views/ProfileWindow.xaml.cs:267-270 | the profile `IsValidEmail` holds exactly for non-empty strings `Regex.IsMatch` accepts |
| EmailPatterns.RegisterCharsAreProfileChars | SpotifyLikePlayer/Views/RegisterWindow.xaml.cs:74 | apart from its '@', a registration address holds only characters the profile pattern allows |
| EmailPatterns.RegisterDots | SpotifyLikePlayer/Views/RegisterWindow.xaml.cs:74 | a registration address has a '.' after its '@' with text on both sides |
| EmailPatterns.DomainDot | SpotifyLikePlayer/Views/RegisterWindow.xaml.cs:74 | a matched domain has an inner '.' |
| EmailPatterns.RegisterCoreIsProfileCore | SpotifyLikePlayer/Views/ProfileWindow.xaml.cs:269 | every address registration accepts is one the profile editor accepts too |
| Profile.CheckProfile | SpotifyLikePlayer/Views/ProfileWindow.xaml.cs:164-189 | the checks run in order: blank user name, invalid email, then (only for a non-empty password) fewer than 5 UTF-16 code units, mismatch; accepted exactly when all hold |
| Profile.SaveResult | SpotifyLikePlayer/Views/ProfileWindow.xaml.cs:157-246 | refused exactly when the trimmed form fails; saved exactly when it passes and the database does not throw; the write carries the trimmed name and email, a hash only for a non-empty password, and the pending photo |
| Profile.AfterSave | SpotifyLikePlayer/Views/ProfileWindow.xaml.cs:235-238 | the in-memory user changes only after a save; the photo only when there was a new one |
| Profile.SaveSeesOnlyTrimmedText | SpotifyLikePlayer/Views/ProfileWindow.xaml.cs:159-162 | padding around any field never changes what Save does |
| Profile.BlankPasswordKeepsHash | SpotifyLikePlayer/Views/ProfileWindow.xaml.cs:176-221 | a white-space password skips the password checks and leaves the stored hash alone |
| Profile.SavedFieldsAreWellFormed | SpotifyLikePlayer/Views/ProfileWindow.xaml.cs:159-174 | a saved email is non-empty and matches the profile regex; a saved name is not blank |
| Profile.AvatarFor | SpotifyLikePlayer/Views/ProfileWindow.xaml.cs:130-155 | null or empty bytes give the default avatar; a photo is shown only for bytes that decode |
| Profile.LoadedUser | SpotifyLikePlayer/Views/ProfileWindow.xaml.cs:56-84 | a user with id ≤ 0 is refused before any query; a found row replaces name, email and photo; otherwise nothing changes |
| Profile.LoadedAvatar | SpotifyLikePlayer/Views/ProfileWindow.xaml.cs:56-94 | the avatar is set from the loaded photo unless the guard refused or the query threw |
| Profile.AcceptedPhoto | SpotifyLikePlayer/Views/ProfileWindow.xaml.cs:97-127 | only a picked, non-empty, decodable file becomes the pending photo |
| Profile.ProfileWindow.constructor | SpotifyLikePlayer/Views/ProfileWindow.xaml.cs:34-39 | the user is taken and `LoadUserData` runs; no pending photo |
| Profile.ProfileWindow.LoadUserData | SpotifyLikePlayer/Views/ProfileWindow.xaml.cs:56-95 | user and avatar become `LoadedUser` and `LoadedAvatar` |
| Profile.ProfileWindow.ChangePhoto | SpotifyLikePlayer/Views/ProfileWindow.xaml.cs:97-127 | an accepted photo becomes pending and is shown; anything else changes nothing; a pending photo is never empty |
| Profile.ProfileWindow.Save | SpotifyLikePlayer/Views/ProfileWindow.xaml.cs:157-247 | the outcome is `SaveResult` for the user and the pending photo; the user becomes `AfterSave`; the window closes exactly after a save |
| Profile.ProfileWindow.Commit | SpotifyLikePlayer/Views/ProfileWindow.xaml.cs:235-241 | the user fields after the statements, then the closing animation on success |
| Profile.ProfileWindow.Cancel | SpotifyLikePlayer/Views/ProfileWindow.xaml.cs:262-265 | closes without saving |
| Registration.CheckRegistration | SpotifyLikePlayer/Views/RegisterWindow.xaml.cs:35-61 | the checks run in order on the untrimmed text: an empty name, password or email (not the confirmation), fewer than 5 UTF-16 code units, mismatch, then the email regex |
| Registration.RegisterPressed | SpotifyLikePlayer/Views/RegisterWindow.xaml.cs:32-69 | `Register` is reached only by an accepted form and receives the raw name, password and email |
| Registration.RegisteredEmailMatchesPattern | SpotifyLikePlayer/Views/RegisterWindow.xaml.cs:57-76 | every registered address matches `^[\w-\.]+@([\w-]+\.)+[\w-]{2,4}$` |
| Registration.EmptyConfirmationIsAMismatch | SpotifyLikePlayer/Views/RegisterWindow.xaml.cs:35-56 | an empty confirmation is reported as a mismatch, not a missing field |
| Registration.BlankUsernamePasses | SpotifyLikePlayer/Views/RegisterWindow.xaml.cs:35-44 | a user name of one space passes, since nothing is trimmed |
| Registration.RegisterWindow.constructor | SpotifyLikePlayer/Views/RegisterWindow.xaml.cs:26-30 | the dialog starts open with no result |
| Registration.RegisterWindow.RegisterClick | SpotifyLikePlayer/Views/RegisterWindow.xaml.cs:32-69 | the dialog result becomes true and the window closes only on a successful registration |
| PasswordReset.CheckReset | SpotifyLikePlayer/Views/ForgotPasswordWindow.xaml.cs:33-49 | the email format first, then the new password's length in UTF-16 code units (at least 5), then the confirmation |
| PasswordReset.ResetPressed | SpotifyLikePlayer/Views/ForgotPasswordWindow.xaml.cs:31-61 | the message is the first failed check, or success or "not found" as `ResetPassword` answers; always some message |
| PasswordReset.EmptyEmailIsBadFormat | SpotifyLikePlayer/Views/ForgotPasswordWindow.xaml.cs:38-41 | an empty email is a bad format, whatever the passwords |
| PasswordReset.ResetNeedsWellFormedInput | SpotifyLikePlayer/Views/ForgotPasswordWindow.xaml.cs:38-51 | `ResetPassword` is reached only with a matching address and a confirmed password of at least 5 characters |
| PasswordReset.ForgotPasswordWindow.constructor | SpotifyLikePlayer/Views/ForgotPasswordWindow.xaml.cs:25-29 | the window starts open with an empty message |
| PasswordReset.ForgotPasswordWindow.ResetPasswordClick | SpotifyLikePlayer/Views/ForgotPasswordWindow.xaml.cs:31-61 | the message is `ResetPressed`; the window closes exactly on success |
| PasswordReset.ForgotPasswordWindow.ClearErrorMessage | SpotifyLikePlayer/Views/ForgotPasswordWindow.xaml.cs:69-72 | clears the message only |
| SubmitRequest.Mp3Chosen | SpotifyLikePlayer/Views/SubmitMusicRequestWindow.xaml.cs:39-66 | the path always changes; the bytes only when the read succeeds; the year only for a tag year above 0, through the unchecked cast |
| SubmitRequest.YearSurvivesFileWithoutYear | SpotifyLikePlayer/Views/SubmitMusicRequestWindow.xaml.cs:31-59 | a later file without a year keeps the current year |
| SubmitRequest.HugeTagYearTurnsNegative | SpotifyLikePlayer/Views/SubmitMusicRequestWindow.xaml.cs:58 | a tag year of 2^31 or more becomes negative |
| SubmitRequest.CoverChosen | SpotifyLikePlayer/Views/SubmitMusicRequestWindow.xaml.cs:68-119 | read cover bytes are kept even when they do not decode; the preview changes only for decodable bytes |
| SubmitRequest.SubmittedCoverMayDifferFromPreview | SpotifyLikePlayer/Views/SubmitMusicRequestWindow.xaml.cs:79-88 | after an undecodable cover, the bytes to submit differ from the picture shown |
| SubmitRequest.CheckSubmit | SpotifyLikePlayer/Views/SubmitMusicRequestWindow.xaml.cs:123-149 | the checks run in order: MP3, blank title, cover, genre, authorship; only an explicit "no" to authorship fails |
| SubmitRequest.SubmitPressed | SpotifyLikePlayer/Views/SubmitMusicRequestWindow.xaml.cs:121-173 | submitted exactly when the form passes, the artist is set and the service accepts; the request carries the trimmed title and album title, the read bytes and the detected year |
| SubmitRequest.IndeterminateAuthorshipPasses | SpotifyLikePlayer/Views/SubmitMusicRequestWindow.xaml.cs:145 | a null check box counts as ticked |
| SubmitRequest.SubmittedTitleIsTrimmedAndNonEmpty | SpotifyLikePlayer/Views/SubmitMusicRequestWindow.xaml.cs:128-158 | a submitted title is non-empty and has no surrounding white space |
| SubmitRequest.SubmitMusicRequestWindow.constructor | SpotifyLikePlayer/Views/SubmitMusicRequestWindow.xaml.cs:27-37 | nothing chosen; the year is the current year |
| SubmitRequest.SubmitMusicRequestWindow.BrowseMp3 | SpotifyLikePlayer/Views/SubmitMusicRequestWindow.xaml.cs:39-66 | a cancelled dialog changes nothing; otherwise the form becomes `Mp3Chosen` |
| SubmitRequest.SubmitMusicRequestWindow.BrowseCover | SpotifyLikePlayer/Views/SubmitMusicRequestWindow.xaml.cs:68-96 | a cancelled dialog changes nothing; otherwise the form becomes `CoverChosen` |
| SubmitRequest.SubmitMusicRequestWindow.UseDefaultCover | SpotifyLikePlayer/Views/SubmitMusicRequestWindow.xaml.cs:98-119 | the form becomes `CoverChosen` of the bundled picture |
| SubmitRequest.SubmitMusicRequestWindow.SubmitClick | SpotifyLikePlayer/Views/SubmitMusicRequestWindow.xaml.cs:121-173 | the outcome is `SubmitPressed`; the result is set and the window closed only after the service accepted |
| SubmitRequest.SubmitMusicRequestWindow.Finish | SpotifyLikePlayer/Views/SubmitMusicRequestWindow.xaml.cs:165-167 | on success the dialog result is true and the window closes |
| SubmitRequest.SubmitMusicRequestWindow.Cancel | SpotifyLikePlayer/Views/SubmitMusicRequestWindow.xaml.cs:175-178 | closes without submitting |
| Login.LoginAttempt | SpotifyLikePlayer/Views/LoginWindow.xaml.cs:83-104 | a password under 5 UTF-16 code units is refused before `Login`; otherwise the user logs in exactly when `Login` yields a user |
| Login.GateCountsCodeUnits | SpotifyLikePlayer/Views/LoginWindow.xaml.cs:88-92 | the gate counts code units, not characters: three emoji pass it, one emoji and two letters do not |
| Login.BmpGateIsCharacterCount | SpotifyLikePlayer/Views/LoginWindow.xaml.cs:88-92 | for a password inside the Basic Multilingual Plane the gate is a count of characters |
| Login.GateIgnoresUsername | SpotifyLikePlayer/Views/LoginWindow.xaml.cs:85-92 | the gate depends on the password alone, even for an empty user name |
| Login.App.constructor | SpotifyLikePlayer/App.xaml.cs:18 | no login window is registered at start |
| Login.LoginWindow.constructor | SpotifyLikePlayer/Views/LoginWindow.xaml.cs:26-32 | the new window registers itself as `App.CurrentLoginWindow`; its own view model's current user is the initial user with id 1 (MainViewModel.cs:33) |
| Login.LoginWindow.Closing | SpotifyLikePlayer/Views/LoginWindow.xaml.cs:34-69 | the first close request is cancelled and sets the flag; later ones pass |
| Login.LoginWindow.OnClosed | SpotifyLikePlayer/Views/LoginWindow.xaml.cs:76-82 | the slot is cleared only while it still names this window |
| Login.LoginWindow.Close | SpotifyLikePlayer/Views/LoginWindow.xaml.cs:34-82 | a close request closes the window only once the animation flag was set, and only then runs `OnClosed` |
| Login.LoginWindow.AnimationCompleted | SpotifyLikePlayer/Views/LoginWindow.xaml.cs:63-66 | the end of the animation closes the window |
| Login.LoginWindow.LoginClick | SpotifyLikePlayer/Views/LoginWindow.xaml.cs:83-104 | a short password shows its message and never reaches `Login`; otherwise `CurrentUser` takes `Login`'s answer and the main window opens exactly for a user |
| Login.LoginWindow.RegisterDialogReturned | SpotifyLikePlayer/Views/LoginWindow.xaml.cs:106-116 | only a true dialog result opens the main window and closes this one, and then the shared view model's current user is the one `Register` authenticated (possibly none); any other result leaves the current user unchanged |
| Login.LoginWindow.ClearErrorMessage | SpotifyLikePlayer/Views/LoginWindow.xaml.cs:123-126 | clears the message only |
| Login.HandOver | SpotifyLikePlayer/Views/LoginWindow.xaml.cs:28-82 | when a first login window closes after a second was created, the second stays registered |

## Left out

- Engine behaviour: decoding, `NaturalDuration`/`DurationInSeconds`, the render loop's timing and `Dispatcher` marshalling. What the engine reports comes in as a parameter.
- `Play`: an invalid file path makes `new Uri(...)` throw. The model assumes the path is accepted.
- Property-change notifications of the player, the view model and the windows. Only `Song`'s are modelled, because its setters decide them.
- The database and other services: SQL, BCrypt, TagLib, the temp-file writes and cover writing on import. Each is a reply or function parameter.
- `DatabaseService.AddSong` names six columns but supplies seven values, one from a `Song` member that does not exist. That snapshot cannot run, so the import's library write is the `stored` parameter.
- `GetOrCreateFavoritePlaylist`, `AddSongToPlaylist` and `GetCoverImage` are called by `MainViewModel` but defined nowhere in the repository. They are parameters (`created`, the write pair, and nothing for covers).
- `Seek`, called when a drag completes, does not exist in `MediaPlayerService`. `Admin.AdminPanel.DragCompleted` returns the target instead of seeking.
- `MusicSubmission` has no `ArtistName`, `TempFilePath` or `CoverImageSource`, yet the admin panel reads all three. The model's `Submission` carries an artist name, the temporary path is the `saveTemp` parameter, and the cover is not modelled.
- The admin panel's Next/Previous buttons (plain calls of `PlayNext`/`PlayPrevious`), `ListenToSong_Click` (a call of `PlaySubmission`), approve/reject/delete, `CloseButton_Click`, temp-file cleanup and animations. They add no decision logic beyond what is modelled or are database work.
- Aliasing:
  - The model tracks only whether `DisplayedSongs` is the same object as `Songs`.
  - The player's playlist is a snapshot value. A later `Songs.Add` does not show up in it.
  - In the admin panel, the player plays from `TempPlaylist` itself, and `LoadAllSubmissions` clears and refills that collection in place. The model does not show a reload changing the list the player is already playing from.
  - The profile window's `User` is the window's own copy, not the shared object.
- ViewModel.MainViewModel.SearchSongs: requires every song whose title does not match to have an artist. A song without one would throw there, and the library queries always attach one.
- ViewModel.SearchFilter: compares characters through an abstract upper-casing table, not culture-aware UTF-16 rules. `EndsWith` on file names is compared ordinally, while .NET's default is culture-sensitive.
- `MainViewModel.Login`, `Register` and `ResetPassword` reload the library or write to the database. Those effects belong to the view model's database layer; the windows see only their answers.
- `LoadPlaylistSongs` and `AddSongToCollection` of `MainViewModel`, and `MainWindow`'s binding glue, are outside the modelled core.
- Message boxes, their texts and the icons. Refusals are datatype values instead.
- A null `_currentUser` in `LoadUserData` cannot occur, because the constructor rejects null. The model therefore has no null user there.
- Login.LoginAttempt: a null password is not modelled, because `PasswordBox.Password` is never null.
- Playback positions, volumes and the 10-second threshold are compared as exact reals, not IEEE doubles.
