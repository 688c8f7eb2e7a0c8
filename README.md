# Edit session of the Android video editor, in Dafny

This project models the editing-session logic of the video editor app. Android itself is not modelled.

- **The session.** `PlayerViewModel` holds:
  - the current video URI;
  - the "saving video" in-flight flag;
  - the playback resume point (autoplay flag and start position);
  - the filter of the last successful filter job (the filter baked into the current video, unless another video was picked since).
- **The three intents.** Save a permanent copy, replace the audio track, and apply a colour filter picked by catalogue position. Each one:
  - raises the flag;
  - builds an ffmpeg command line;
  - hands a job to the transcoder runner.
- **The runner.** It is a pending-job slot. Its single completion callback (`Complete`) lowers the flag. It runs the job's success action only for the success return code.
- **Supporting pieces.** The fixed colour-filter catalogue, the path builders for permanent and scratch output, and the creation of the app's public folder.

Layout, one module per source file or component:

- `filter_ids.dfy`, module `FilterIds`: the filter ids and gamma multipliers declared at the top of `PlayerViewModel.kt`.
- `color_filter_list.dfy`, module `ColorFilterList`: the catalogue. `ColorFilterItem` is folded in as a datatype.
- `file_system_util.dfy`, module `FileSystemUtil`: the path builders and the folder creation. The folder creation is a method of a `Storage` object that holds the set of existing directories.
- `player_commands.dfy`, module `PlayerCommands`: the command lines and `createParamsForFilterCommand`. Both are pure text.
- `player_view_model.dfy`, module `Player`: the session state as a value (`Session`), with one function per operation, and the `PlayerViewModel` class. Each class method is proved to move its fields exactly as that function says.
- `player_properties.dfy`, module `PlayerProperties`: properties across several operations. These include the round trip from an intent to its completion and the link between the flag and the outstanding job over any run.
- `wrappers.dfy`, module `Wrappers`: `Option`.

Points where the code does less than a tidy editing state machine would, modelled as the code does them:

- **No busy check.** The code never rejects an intent while a job is in flight. The only guard is the screen hiding its controls while saving. The intents therefore *require* `!isSaving`.
- **The resume point survives a successful edit.** The view model does not reset it when a new video becomes current. The model keeps it, and `Completed` states so.
- **Re-applying the current filter still switches the video.** The command then carries no filter graph, so the output is a plain copy. Its success action still records the filter and switches the URI to the new scratch file (`ReapplyingFilterStillSwitchesVideo`).
- **Picking another video keeps the recorded filter.** `updateVideoUri` replaces the video but not `currentColorFilter`. After blue is applied to one video and another is picked, the field still says blue; a blue click on the new, unfiltered video builds the plain-copy command (`PickingVideoKeepsFilter`).
- **No path-resolution or storage failure outcome.** The code has no such path. A failing `getRealPath` or `mkdirs` is not turned into a failed outcome.

## Model

| member | source | states |
|---|---|---|
| `ColorFilterList.DefaultItems` | app/src/main/java/com/example/videoeditor/colorfilter/ColorFilterList.kt:5-23 | exactly three entries, in the order blue, green, red; every id is a selectable filter; none is `NO_FILTER`; ids pairwise distinct |
| `ColorFilterList.Catalogue` | app/src/main/java/com/example/videoeditor/colorfilter/ColorFilterList.kt:5-25 | `ColorFilterList().getList()` is the default list, the same on every call |
| `ColorFilterList.FilterAt` | app/src/main/java/com/example/videoeditor/PlayerViewModel.kt:91 | a clicked position 0..2 yields a selectable filter id, the entry's own |
| `ColorFilterList.EachFilterAtOnePosition` | app/src/main/java/com/example/videoeditor/colorfilter/ColorFilterList.kt:11-22 | every selectable filter sits at exactly one catalogue position |
| `FileSystemUtil.DefaultFolder` | app/src/main/java/com/example/videoeditor/fileutils/FileSystemUtil.kt:20-23 | the app's folder lies directly inside the Movies directory |
| `FileSystemUtil.SavingFileNameAndDir` | app/src/main/java/com/example/videoeditor/fileutils/FileSystemUtil.kt:12-14 | the saving path starts with `<movies>/Rome4VideoEditor/VID`, ends in `.mp4`, and has the length of directory plus token plus the fixed text |
| `FileSystemUtil.NewTempFileNameAndDir` | app/src/main/java/com/example/videoeditor/fileutils/FileSystemUtil.kt:16-17 | the scratch path starts with `<cache>/`, ends in `.mp4`, and has the length of directory plus token plus the fixed text |
| `FileSystemUtil.SavingPathInjective` | app/src/main/java/com/example/videoeditor/fileutils/FileSystemUtil.kt:12-14 | for one Movies directory, equal saving paths mean equal tokens |
| `FileSystemUtil.TempPathInjective` | app/src/main/java/com/example/videoeditor/fileutils/FileSystemUtil.kt:16-17 | for one cache directory, equal scratch paths mean equal tokens |
| `FileSystemUtil.PathsAreDirectlyUnder` | app/src/main/java/com/example/videoeditor/fileutils/FileSystemUtil.kt:12-17 | with a token free of `/`, the scratch file lies directly in the cache directory and the saved file directly in the app's folder |
| `FileSystemUtil.WithAncestors` | app/src/main/java/com/example/videoeditor/fileutils/FileSystemUtil.kt:24 | `mkdirs` creates the folder itself and exactly its '/'-delimited ancestors |
| `FileSystemUtil.AfterCreateDefaultFolder` | app/src/main/java/com/example/videoeditor/fileutils/FileSystemUtil.kt:19-25 | afterwards the app folder exists; no directory disappears; an existing folder changes nothing; every new directory is the folder or one of its '/'-delimited ancestors |
| `FileSystemUtil.CreateDefaultFolderIdempotent` | app/src/main/java/com/example/videoeditor/fileutils/FileSystemUtil.kt:19-25 | creating the folder twice equals creating it once |
| `FileSystemUtil.Storage.CreateDefaultFolderIfNeed` | app/src/main/java/com/example/videoeditor/fileutils/FileSystemUtil.kt:19-25 | the set of existing directories becomes `AfterCreateDefaultFolder` of the old set |
| `PlayerCommands.SaveCommand` | app/src/main/java/com/example/videoeditor/PlayerViewModel.kt:69 | the copy command's last argument is the destination it was built with |
| `PlayerCommands.ReplaceAudioCommand` | app/src/main/java/com/example/videoeditor/PlayerViewModel.kt:80 | the replace-audio command's last argument is the destination it was built with |
| `PlayerCommands.FilterCommand` | app/src/main/java/com/example/videoeditor/PlayerViewModel.kt:92 | the filter command's last argument is the destination it was built with, whatever the parameters |
| `PlayerCommands.GammaGraph` | app/src/main/java/com/example/videoeditor/PlayerViewModel.kt:162 | the graph is a `-vf eq=` option whose length is the fixed text plus the three multipliers |
| `PlayerCommands.ChannelOf` | app/src/main/java/com/example/videoeditor/PlayerViewModel.kt:157-161 | a filter id names a channel exactly when it is red, green or blue |
| `PlayerCommands.FilterParams` | app/src/main/java/com/example/videoeditor/PlayerViewModel.kt:147-163 | empty exactly when the requested filter is the current one; otherwise the `-vf eq=gamma_r=..:gamma_g=..:gamma_b=..` graph with 1.5 on the requested filter's channel and 1 elsewhere, independent of the current filter |
| `PlayerCommands.OneChannelRaised` | app/src/main/java/com/example/videoeditor/PlayerViewModel.kt:149-161 | at most one channel gets 1.5, and only for a selectable filter |
| `PlayerCommands.OwnChannelRaised` | app/src/main/java/com/example/videoeditor/PlayerViewModel.kt:157-161 | a selectable filter raises its own channel to 1.5, so with `OneChannelRaised` exactly one channel is raised |
| `PlayerCommands.NoChannelRaisedWithoutFilter` | app/src/main/java/com/example/videoeditor/PlayerViewModel.kt:149-161 | for `NO_FILTER` or an unknown id every channel keeps 1 |
| `PlayerCommands.FilterParamsOverride` | app/src/main/java/com/example/videoeditor/PlayerViewModel.kt:148-162 | the parameters for a new filter are the same whatever different filter is current: filters override, never compose |
| `PlayerCommands.DistinctFiltersDistinctParams` | app/src/main/java/com/example/videoeditor/PlayerViewModel.kt:149-162 | two different selectable filters never give the same parameters |
| `PlayerCommands.LastQuotedArgumentOf` | app/src/main/java/com/example/videoeditor/PlayerViewModel.kt:69-92 | a command ending in a quoted, quote-free path yields that path as its last argument |
| `PlayerCommands.CommandsWriteTo` | app/src/main/java/com/example/videoeditor/PlayerViewModel.kt:69-92 | the save, replace-audio and filter commands all write to the destination they were built with |
| `Player.Initial` | app/src/main/java/com/example/videoeditor/PlayerViewModel.kt:31-38 | a new session has no video, is idle with an empty runner slot, has autoplay on and position `TIME_UNSET`, has `NO_FILTER`, and satisfies the session invariant |
| `Player.FileUri` | app/src/main/java/com/example/videoeditor/PlayerViewModel.kt:82 | the file URI is `file://` followed by the path, which it gives back unchanged |
| `Player.JobFor` | app/src/main/java/com/example/videoeditor/PlayerViewModel.kt:67-97 | each intent's job writes to its destination, and its success action is the intent's own (saved toast, adopt the new video, or adopt the filtered video for the clicked position) on that destination |
| `Player.InitIfNeeded` | app/src/main/java/com/example/videoeditor/PlayerViewModel.kt:45-48 | a video is set afterwards; an already set video is kept; otherwise the given one is taken |
| `Player.ClearedStartPosition` | app/src/main/java/com/example/videoeditor/PlayerViewModel.kt:54-57 | autoplay on, position `TIME_UNSET`, nothing else changed |
| `Player.WithStartPosition` | app/src/main/java/com/example/videoeditor/PlayerViewModel.kt:59-62 | autoplay stored verbatim; the stored position is non-negative, at least the given one, and equals it or 0; nothing else changed |
| `Player.Submit` | app/src/main/java/com/example/videoeditor/PlayerViewModel.kt:64-98 | an intent raises the flag, fills the runner slot with its job, changes nothing else, and keeps the invariant |
| `Player.Completed` | app/src/main/java/com/example/videoeditor/PlayerViewModel.kt:100-118 | the flag drops and the slot empties for every code; success, cancel and failure outcomes exactly for their codes; any code but success leaves the session untouched; the resume point is always kept; the invariant holds |
| `Player.PlayerViewModel.constructor` | app/src/main/java/com/example/videoeditor/PlayerViewModel.kt:30-38 | the fields start as the initial session, with the catalogue as filter list |
| `Player.PlayerViewModel.OnCleared` | app/src/main/java/com/example/videoeditor/PlayerViewModel.kt:40-43 | clearing the session resets the resume point |
| `Player.PlayerViewModel.InitViewModelIfNeed` | app/src/main/java/com/example/videoeditor/PlayerViewModel.kt:45-48 | the fields move as `InitIfNeeded` says |
| `Player.PlayerViewModel.UpdateVideoUri` | app/src/main/java/com/example/videoeditor/PlayerViewModel.kt:50-52 | only the video URI changes, to the given one |
| `Player.PlayerViewModel.ClearStartPosition` | app/src/main/java/com/example/videoeditor/PlayerViewModel.kt:54-57 | the fields move as `ClearedStartPosition` says |
| `Player.PlayerViewModel.UpdateStartPosition` | app/src/main/java/com/example/videoeditor/PlayerViewModel.kt:59-62 | the fields move as `WithStartPosition` says, for any 64-bit position |
| `Player.PlayerViewModel.AsyncSaveVideo` | app/src/main/java/com/example/videoeditor/PlayerViewModel.kt:64-72 | submits the copy of the freshly resolved video to the saving path and creates the app's folder |
| `Player.PlayerViewModel.AsyncSaveWithNewAudio` | app/src/main/java/com/example/videoeditor/PlayerViewModel.kt:74-86 | submits the audio replacement of the resolved video and audio into a scratch path |
| `Player.PlayerViewModel.ColorFilterItemClick` | app/src/main/java/com/example/videoeditor/PlayerViewModel.kt:87-98 | submits the filter command for the clicked position, against the filter currently baked in, into a scratch path |
| `Player.PlayerViewModel.Complete` | app/src/main/java/com/example/videoeditor/PlayerViewModel.kt:100-118 | the new fields and the outcome are exactly `Completed` of the old fields |
| `PlayerProperties.FailureRestoresSession` | app/src/main/java/com/example/videoeditor/PlayerViewModel.kt:100-118 | an intent followed by a cancel or failure code gives back the session as it was before the intent |
| `PlayerProperties.SuccessEffect` | app/src/main/java/com/example/videoeditor/PlayerViewModel.kt:69-97 | after success, a saved copy changes nothing; a new soundtrack switches to its scratch file; a filter switches to its scratch file and records the entry's filter; the resume point is kept |
| `PlayerProperties.ReapplyingFilterStillSwitchesVideo` | app/src/main/java/com/example/videoeditor/PlayerViewModel.kt:87-98 | re-clicking the baked-in filter builds a command without a filter graph, yet success still switches to the new scratch file |
| `PlayerProperties.JobWritesWhatItAdopts` | app/src/main/java/com/example/videoeditor/PlayerViewModel.kt:64-98 | the file a job's success action uses is the file its command writes |
| `PlayerProperties.PickingVideoKeepsFilter` | app/src/main/java/com/example/videoeditor/PlayerViewModel.kt:50-52 | picking another video keeps the recorded filter, so clicking that filter then builds the plain-copy command |
| `PlayerProperties.InitIfNeededKeepsFirstVideo` | app/src/main/java/com/example/videoeditor/PlayerViewModel.kt:45-48 | after the first initialisation, later calls leave the video unchanged |
| `PlayerProperties.FlagTracksOutstandingJob` | app/src/main/java/com/example/videoeditor/PlayerViewModel.kt:64-118 | over any run whose calls respect the callers' guarantees, at most one job is outstanding; the flag is up and the slot filled exactly while one is |
| `PlayerProperties.BlueFilterScenario` | app/src/main/java/com/example/videoeditor/PlayerViewModel.kt:87-118 | from "a.mp4" with no filter, a successful blue filter makes the scratch file current with blue baked in; clicking blue again builds the plain-copy command |

## Left out

- Threading and `LiveData` observation are not modelled. The callback runs on a worker thread and observers react to the live data; here completion is an ordinary sequential call to `Complete`.
- Toast texts and log lines are not modelled. `Outcome` records only which branch the callback took.
- `FFmpeg.executeAsync` is modelled as the pending-job slot. How the transcoder splits the command text and what it produces are outside the model.
- `RealPathUtil.getRealPath` is not part of this model. It becomes the total function `Context.realPath`; a null or failing resolution is not modelled.
- `UUID.randomUUID` becomes the `token` parameter. The model assumes nothing about token uniqueness; the injectivity lemmas turn distinct tokens into distinct paths.
- `Environment.getExternalStoragePublicDirectory` and `context.cacheDir` become the directory parameters `moviesDir` and `Context.cacheDir`.
- `File.mkdirs` is assumed to succeed. The source ignores its result.
- The duplicate path builders and folder creation in `PlayerViewModel.kt` (lines 120-133) are modelled once, in `FileSystemUtil`.
- `Uri` is modelled by its string form. `Uri.fromFile(File(path))` is modelled as `"file://" + path`. That is its form for a normalised absolute path of letters, digits and `/_-.~`, as the scratch paths built here are (cache directory, UUID, `.mp4`). The percent-encoding of other characters, such as a space becoming `%20`, and the normalisation of the path are not modelled.
- The Kotlin `!!` on the video URI and the list lookup `colorFilterList[it]` would throw on a missing URI or a bad position. They become preconditions of the intents; their callers never violate them.
- `RETURN_CODE_SUCCESS` (0) and `RETURN_CODE_CANCEL` (255) come from the transcoder library's `Config`, and `TIME_UNSET` (Long.MIN_VALUE + 1) from the player library. Neither library is part of this model.
- Drawable resource ids are modelled as an enumeration of the three preview images. The generated integer values are not modelled.
- The screen writes the public field `startAutoPlay` directly when it shows its loading overlay. That write belongs to the screen, not to an operation of the session.
- The screens (`PlayerActivity.kt`, `MainActivity.kt`), the catalogue's list adapter and the application object are not part of this model. They hold UI, lifecycle and file-picker code.
