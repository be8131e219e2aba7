# LocalMedia: a verified model of the playback engine and its supporting state machines

This project models the local audio player of the car media stack.

- **`player.dfy`** (`LocalPlayer`) models `Player.java`. Class `Player` keeps the circular play queue and the current index. It turns commands, audio-focus changes and track completion into published `PlaybackState`s. It also saves the queue as a `Playlist` and rebuilds it on start-up, dropping songs whose file has gone.
- **`playback_view_model.dfy`** (`Playback`) models `PlaybackViewModel.java`. It has the pure `PlaybackStateWrapper` projections: main action, display, loading, enabled and reserved controls, maximum progress, rating action and custom actions. Class `MediaControllerCallback` is the controller-callback state machine.
- **`data_model.dfy`** (`LocalDataModel`) models `DataModel.java`. It covers the folder listing, the query task that builds results and the sequential queue ids, `Builder.build`, `parseLong`, and class `DataModel` with its pending-task replacement and `onQueryByKey` branching.
- **`media_browser_connector.dfy`** (`SourceConnection`) models `MediaBrowserConnector.java`: the connection state machine and its 32-bit stale-callback counter.
- **`media_items_repository.dfy`** (`Browse`) models `MediaItemsRepository.java`: the per-source node cache, root and search results, and the reaction to each connection status.
- **`media_types.dfy`** (`MediaTypes`) holds what the modules share: the Android playback constants, `PlaybackState`, `QueueItem`, and Java `int` wrap-around and remainder.

## Model conventions

- The platform is modelled through its answers, passed in as parameters:
  - `loadOk`: `MediaPlayer.reset/setDataSource/prepare` succeed; false means an `IOException`.
  - `granted`: every audio-focus request made during the command is granted.
  - `hasPermissions`, `fileExists`, and `shuffledRest`: the order `Collections.shuffle` produced, which must be a permutation of the rest of the queue.
  - The connection answers `oldConnected`, `connectThrows` and `browserConnected`, the controller the factory returns, and `getRoot()`.
- Uncaught Java runtime exceptions are outcomes. In the player they are `Outcome.Crash(NullQueue | IndexOutOfBounds)`, with the state as it was at the throw. In the repository, a `crashed` result marks the `NullPointerException` from a missing browsing state.
- Everything a component publishes is a field: `setPlaybackState` calls, LiveData values, browser subscribe/unsubscribe/search calls, and `sendResult`. A LiveData holding `null` is `None`.
- Protobuf-nano plus Base64 is the abstract pair `Encode`/`Decode`. A stored value that fails to decode is `Corrupt`.

Two behaviours of the code are easy to miss. Skip-to-item uses the queue id, cast to `int`, as a position with no bounds check (see Findings). Retreating stops only on a null queue; an empty non-null queue indexes -1 and crashes, and `SafeRetreat` models that.

## Model

| member | source | states |
|---|---|---|
| MediaTypes.WrapInt | Service/src/main/java/com/android/car/media/localmediaplayer/Player.java:307 | Java `int` arithmetic: the result is an int, equals the input when that is an int, and differs from it by a multiple of 2^32 |
| MediaTypes.JavaRem | Service/src/main/java/com/android/car/media/localmediaplayer/Player.java:307 | Java `%` truncates toward zero: the remainder takes the dividend's sign, is smaller in magnitude than the divisor, and differs from the dividend by a multiple of the divisor, which fixes its value |
| LocalPlayer.LoadOutcomeStates | Service/src/main/java/com/android/car/media/localmediaplayer/Player.java:322-340 | a guarded load publishes exactly one state: ERROR if loading threw, PLAYING with PLAYING_ACTIONS when focus is granted, PAUSED with PAUSED_ACTIONS when denied, in the last two cases naming the loaded item |
| LocalPlayer.NextIndex | Service/src/main/java/com/android/car/media/localmediaplayer/Player.java:305-308 | from a valid index the next index stays in [0, size): the successor, or 0 after the last item |
| LocalPlayer.PrevIndex | Service/src/main/java/com/android/car/media/localmediaplayer/Player.java:382-388 | from a valid index the previous index stays in [0, size): the predecessor, or size-1 before the first item |
| LocalPlayer.NextPrevInverse | Service/src/main/java/com/android/car/media/localmediaplayer/Player.java:298-313 | retreating undoes advancing and advancing undoes retreating |
| LocalPlayer.AdvancedByCompose | Service/src/main/java/com/android/car/media/localmediaplayer/Player.java:305-308 | advancing m times and then n times is advancing m+n times |
| LocalPlayer.AdvancedByBelowEnd | Service/src/main/java/com/android/car/media/localmediaplayer/Player.java:305-308 | k advances that stay before the end move the index by exactly k |
| LocalPlayer.AdvancedByOne | Service/src/main/java/com/android/car/media/localmediaplayer/Player.java:305-308 | one advance moves to the next item, wrapping to 0 after the last |
| LocalPlayer.AdvanceCycle | Service/src/main/java/com/android/car/media/localmediaplayer/Player.java:305-308 | advancing size times from any valid index returns to it, so the queue loops |
| LocalPlayer.DescriptionsRenumbered | Service/src/main/java/com/android/car/media/localmediaplayer/Player.java:430-434 | renumbering the queue ids keeps every description in place |
| LocalPlayer.DescriptionsPermuted | Service/src/main/java/com/android/car/media/localmediaplayer/Player.java:426-428 | a permutation of the items is a permutation of their descriptions |
| LocalPlayer.ShuffleArrangement | Service/src/main/java/com/android/car/media/localmediaplayer/Player.java:420-439 | the shuffled queue has the old length, the current item first, every queue id equal to its position, and the same multiset of descriptions |
| LocalPlayer.Decode | Service/src/main/java/com/android/car/media/localmediaplayer/Player.java:495-505 | decoding fails exactly on a corrupt stored value |
| LocalPlayer.KeptSongs | Service/src/main/java/com/android/car/media/localmediaplayer/Player.java:528-532 | the kept songs are saved songs whose file exists, and there are no more of them than were saved |
| LocalPlayer.LastMatch | Service/src/main/java/com/android/car/media/localmediaplayer/Player.java:534-536 | none iff no song has the id; otherwise a position with that id and no later song with it |
| LocalPlayer.KeptSongsConcat | Service/src/main/java/com/android/car/media/localmediaplayer/Player.java:528-547 | the file filter keeps the saved order: filtering a concatenation filters each part |
| LocalPlayer.KeptSongsExactly | Service/src/main/java/com/android/car/media/localmediaplayer/Player.java:528-532 | a song is kept iff it was saved and its file exists |
| LocalPlayer.KeptSongsAll | Service/src/main/java/com/android/car/media/localmediaplayer/Player.java:528-547 | when every file exists, every song is kept, in order |
| LocalPlayer.RestoreDropsStale | Service/src/main/java/com/android/car/media/localmediaplayer/Player.java:528-554 | a song whose file is gone is not restored, and if it was the current one (ids unique) the restored index is 0 |
| LocalPlayer.RestoredIndexInRange | Service/src/main/java/com/android/car/media/localmediaplayer/Player.java:534-554 | the restored index lies in the restored queue and names the saved current song whenever it was kept |
| LocalPlayer.SaveRestoreRoundTrip | Service/src/main/java/com/android/car/media/localmediaplayer/Player.java:453-475 | saving and restoring with all files present gives back the same queue and position, and the same index when queue ids are unique |
| LocalPlayer.FirstIndexOfMediaId | Service/src/main/java/com/android/car/media/localmediaplayer/Player.java:221-229 | -1 iff no item has the media id; otherwise the first position that has it |
| LocalPlayer.PositionOfQueueId | Service/src/main/java/com/android/car/media/localmediaplayer/Player.java:395-403 | -1 iff no item has the queue id; otherwise the first position that has it (lookup used by the corrected skip) |
| LocalPlayer.SnapshotSongs | Service/src/main/java/com/android/car/media/localmediaplayer/Player.java:462-472 | one song per queue item, in queue order, with its queue id, media id, title, subtitle and path |
| LocalPlayer.RebuildQueue | Service/src/main/java/com/android/car/media/localmediaplayer/Player.java:522-547 | the loop builds the queue of kept songs and the index of the last kept current song, or 0 |
| LocalPlayer.StaleRestoreBreaksQueueIds | Service/src/main/java/com/android/car/media/localmediaplayer/Player.java:395-403 | three saved songs with the middle file gone restore to two items, and the second has queue id 2, which is not a position |
| LocalPlayer.Player.constructor | Service/src/main/java/com/android/car/media/localmediaplayer/Player.java:98-150 | no queue, index 0, the decoder idle and no state published |
| LocalPlayer.Player.UpdatePlaybackStatePlaying | Service/src/main/java/com/android/car/media/localmediaplayer/Player.java:560-580 | activates the session and publishes PLAYING for the current item; with no current item it crashes without publishing |
| LocalPlayer.Player.PausePlayback | Service/src/main/java/com/android/car/media/localmediaplayer/Player.java:260-279 | stops the decoder and publishes PAUSED at the decoder position (0 if it was not playing); with no current item it crashes without publishing |
| LocalPlayer.Player.StopPlayback | Service/src/main/java/com/android/car/media/localmediaplayer/Player.java:342-356 | decoder stopped and STOPPED published (position 0, STOPPED_ACTIONS); queue and index unchanged |
| LocalPlayer.Player.ResumePlayback | Service/src/main/java/com/android/car/media/localmediaplayer/Player.java:197-206 | PLAYING is published and the decoder runs; with no current item it crashes without publishing |
| LocalPlayer.Player.Play | Service/src/main/java/com/android/car/media/localmediaplayer/Player.java:322-340 | resets the decoder; a failed load gives the IOException; otherwise playing and PLAYING when focus is granted, PAUSED when denied |
| LocalPlayer.Player.PlayCurrentQueueIndex | Service/src/main/java/com/android/car/media/localmediaplayer/Player.java:315-320 | loads the item at the index, crashing on a null queue or an index outside it |
| LocalPlayer.Player.SafePlayCurrentQueueIndex | Service/src/main/java/com/android/car/media/localmediaplayer/Player.java:395-403 | the same, publishing the error state instead of the IOException |
| LocalPlayer.Player.SafeAdvance | Service/src/main/java/com/android/car/media/localmediaplayer/Player.java:289-313 | non-empty queue: loads the next index, wrapping at the end; null or empty queue: STOPPED, with queue and index unchanged |
| LocalPlayer.Player.SafeRetreat | Service/src/main/java/com/android/car/media/localmediaplayer/Player.java:366-392 | non-null queue: loads the previous index, wrapping below 0; null queue: STOPPED |
| LocalPlayer.Player.OnSkipToNext | Service/src/main/java/com/android/car/media/localmediaplayer/Player.java:282-287 | exactly the effect of advancing |
| LocalPlayer.Player.OnCompletion | Service/src/main/java/com/android/car/media/localmediaplayer/Player.java:628-636 | a finished track advances exactly like skip-to-next |
| LocalPlayer.Player.OnSkipToPrevious | Service/src/main/java/com/android/car/media/localmediaplayer/Player.java:359-364 | exactly the effect of retreating |
| LocalPlayer.Player.OnSkipToQueueItem | Service/src/main/java/com/android/car/media/localmediaplayer/Player.java:395-403 | the index becomes the id truncated to int, then that position is loaded with the error state on IOException and a crash outside the queue |
| LocalPlayer.Player.OnSkipToQueueItemById | Service/src/main/java/com/android/car/media/localmediaplayer/Player.java:395-403 | corrected skip: never crashes; loads the first item with that queue id, as a fresh start of playback at that position, or publishes only the error state when no item has it |
| LocalPlayer.Player.OnPlay | Service/src/main/java/com/android/car/media/localmediaplayer/Player.java:163-195 | missing permissions publish the permission error and nothing else; denied focus changes nothing; granted focus resumes |
| LocalPlayer.Player.OnPause | Service/src/main/java/com/android/car/media/localmediaplayer/Player.java:250-258 | exactly the effect of pausing |
| LocalPlayer.Player.OnAudioFocusChange | Service/src/main/java/com/android/car/media/localmediaplayer/Player.java:610-626 | GAIN resumes playback, or with no current item crashes leaving only the session activated; each LOSS variant pauses it; any other code changes nothing |
| LocalPlayer.Player.StartPlayback | Service/src/main/java/com/android/car/media/localmediaplayer/Player.java:217-247 | no matching media id: error state and nothing else changes; otherwise the queue becomes the candidate queue and the first match is loaded |
| LocalPlayer.Player.OnPlayFromMediaId | Service/src/main/java/com/android/car/media/localmediaplayer/Player.java:209-215 | denied focus changes nothing; granted focus starts playback from the key |
| LocalPlayer.Player.Shuffle | Service/src/main/java/com/android/car/media/localmediaplayer/Player.java:420-439 | two items or fewer (or no queue): nothing changes; a current index outside the queue crashes with nothing changed; otherwise the current item moves first, the rest follow in the given shuffled order, ids are renumbered to positions, the index is 0 and the queue is published |
| LocalPlayer.Player.OnCustomAction | Service/src/main/java/com/android/car/media/localmediaplayer/Player.java:406-414 | the shuffle action has exactly the effect of a shuffle, including its no-op and crash cases; any other action changes nothing |
| LocalPlayer.Player.Destroy | Service/src/main/java/com/android/car/media/localmediaplayer/Player.java:446-451 | playback stops |
| LocalPlayer.Player.SaveState | Service/src/main/java/com/android/car/media/localmediaplayer/Player.java:453-486 | a null or empty queue writes nothing; otherwise the slot holds the encoded snapshot of queue, current id and position |
| LocalPlayer.Player.MaybeRebuildQueue | Service/src/main/java/com/android/car/media/localmediaplayer/Player.java:522-557 | true iff some song is kept; then the queue is the kept songs and the index the restored one; false leaves queue and index unchanged |
| LocalPlayer.Player.MaybeRestoreState | Service/src/main/java/com/android/car/media/localmediaplayer/Player.java:488-520 | no permission: permission error only; nothing or corrupt data stored: nothing changes; otherwise the rebuilt queue is installed and published, with focus and a good load it plays from the saved position, and with focus and a failed load only the decoder is reset |
| LocalPlayer.Player.PlayRestored | Service/src/main/java/com/android/car/media/localmediaplayer/Player.java:505-512 | without focus nothing changes; with focus a failed load leaves the decoder reset (not playing, position 0) and publishes nothing; a successful load publishes PLAYING at 0, seeks to the saved position and publishes PLAYING there; no other field changes |
| LocalDataModel.LastIndexOf | Service/src/main/java/com/android/car/media/localmediaplayer/DataModel.java:253 | -1 iff the character is absent; otherwise its last position |
| LocalDataModel.DirectoryOf | Service/src/main/java/com/android/car/media/localmediaplayer/DataModel.java:252-258 | no directory iff the path has no separator; otherwise the proper prefix ending just before the last separator |
| LocalDataModel.DirName | Service/src/main/java/com/android/car/media/localmediaplayer/DataModel.java:273-274 | the suffix after the last separator, with no separator in it |
| LocalDataModel.RowDirectoriesExactly | Service/src/main/java/com/android/car/media/localmediaplayer/DataModel.java:250-258 | a directory is collected from a cursor iff some row's path lies in it |
| LocalDataModel.RowDirectoriesComplete | Service/src/main/java/com/android/car/media/localmediaplayer/DataModel.java:252-257 | every row whose path has a separator contributes the text before the last one |
| LocalDataModel.RowDirectoriesSound | Service/src/main/java/com/android/car/media/localmediaplayer/DataModel.java:252-257 | every collected directory is the directory of some row |
| LocalDataModel.DirectoriesExactly | Service/src/main/java/com/android/car/media/localmediaplayer/DataModel.java:243-262 | a directory is collected iff some answered query has a row in it |
| LocalDataModel.DirectoriesComplete | Service/src/main/java/com/android/car/media/localmediaplayer/DataModel.java:245-258 | a directory of any cursor's row is in the final set |
| LocalDataModel.DirectoriesSound | Service/src/main/java/com/android/car/media/localmediaplayer/DataModel.java:245-258 | every directory in the final set comes from some cursor's row |
| LocalDataModel.FolderItemInjective | Service/src/main/java/com/android/car/media/localmediaplayer/DataModel.java:273-281 | different directories give different folder items |
| LocalDataModel.CollectDirectories | Service/src/main/java/com/android/car/media/localmediaplayer/DataModel.java:243-262 | the cursor loops collect exactly the set of directories |
| LocalDataModel.AddRowDirectories | Service/src/main/java/com/android/car/media/localmediaplayer/DataModel.java:250-258 | the row loop of one cursor adds exactly the directories of its rows' paths to the set |
| LocalDataModel.ListDirectories | Service/src/main/java/com/android/car/media/localmediaplayer/DataModel.java:270-283 | one browsable folder item per distinct directory, with id dir+"%", the last name as title and the directory as subtitle, and no duplicates |
| LocalDataModel.ListingCovers | Service/src/main/java/com/android/car/media/localmediaplayer/DataModel.java:270-283 | a duplicate-free listing that covers the set is exactly the folder items of the set |
| LocalDataModel.ListFolders | Service/src/main/java/com/android/car/media/localmediaplayer/DataModel.java:242-285 | the folder result has one item per distinct directory and a directory's item is present iff one of its files was found |
| LocalDataModel.Build | Service/src/main/java/com/android/car/media/localmediaplayer/DataModel.java:444-451 | fails iff uris, key column, resolver, result or title column is missing; otherwise the task carries the builder's settings |
| LocalDataModel.RowItemsShape | Service/src/main/java/com/android/car/media/localmediaplayer/DataModel.java:332-350 | one result per cursor row, in row order |
| LocalDataModel.QueryItemsShape | Service/src/main/java/com/android/car/media/localmediaplayer/DataModel.java:316-371 | as many results as rows over all URIs, each with the task's flags |
| LocalDataModel.QueryItemsConcat | Service/src/main/java/com/android/car/media/localmediaplayer/DataModel.java:322-360 | results of later URIs follow those of earlier ones |
| LocalDataModel.RunQueryTask | Service/src/main/java/com/android/car/media/localmediaplayer/DataModel.java:316-371 | the results are the rows of every URI in URI order then row order, a URI whose query failed or gave no cursor adding none; a queue-filling task appends one item per result with queue ids 0, 1, 2, … continuing across URIs |
| LocalDataModel.AppendRowItems | Service/src/main/java/com/android/car/media/localmediaplayer/DataModel.java:333-360 | one cursor's row loop appends its rows' items in row order and keeps the appended queue numbered by position |
| LocalDataModel.ParseLong | Service/src/main/java/com/android/car/media/localmediaplayer/DataModel.java:203-211 | an optional sign and at least one digit parse to the signed digit value when it is in the Java long range and fail otherwise; the empty string, a bare sign and any other non-digit fail |
| LocalDataModel.Decimal | Service/src/main/java/com/android/car/media/localmediaplayer/DataModel.java:203 | the decimal text of a number is a non-empty string of digits |
| LocalDataModel.DecimalValue | Service/src/main/java/com/android/car/media/localmediaplayer/DataModel.java:203 | the digits of a number's decimal text have that number as value |
| LocalDataModel.ParseLongDecimal | Service/src/main/java/com/android/car/media/localmediaplayer/DataModel.java:203 | every long's decimal text, with "-" when negative, parses back to it |
| LocalDataModel.DataModel.constructor | Service/src/main/java/com/android/car/media/localmediaplayer/DataModel.java:61-64 | an empty queue and no pending task |
| LocalDataModel.DataModel.QueryInBackground | Service/src/main/java/com/android/car/media/localmediaplayer/DataModel.java:127-134 | the result is detached, the old pending task is cancelled and the new task is the only pending one |
| LocalDataModel.DataModel.OnQueryByFolder | Service/src/main/java/com/android/car/media/localmediaplayer/DataModel.java:71-74 | replaces the pending task with a folder listing of all audio |
| LocalDataModel.DataModel.OnQueryByCategory | Service/src/main/java/com/android/car/media/localmediaplayer/DataModel.java:81-125 | replaces the pending task with a browsable category query over the given table and columns |
| LocalDataModel.DataModel.OnQueryByAlbum | Service/src/main/java/com/android/car/media/localmediaplayer/DataModel.java:81-91 | pending task: album query keyed by album key, titled by album |
| LocalDataModel.DataModel.OnQueryByArtist | Service/src/main/java/com/android/car/media/localmediaplayer/DataModel.java:98-108 | pending task: artist query keyed by artist key, titled by artist |
| LocalDataModel.DataModel.OnQueryByGenre | Service/src/main/java/com/android/car/media/localmediaplayer/DataModel.java:115-125 | pending task: genre query keyed by genre id, titled by name |
| LocalDataModel.DataModel.OnQueryByKey | Service/src/main/java/com/android/car/media/localmediaplayer/DataModel.java:195-225 | always clears the queue; a genre key that does not parse sends an empty result and starts no task; otherwise the playable, queue-filling query for that key replaces the pending task |
| LocalDataModel.DataModel.RunPending | Service/src/main/java/com/android/car/media/localmediaplayer/DataModel.java:242-371 | running the pending task sends exactly one result, the task's items; a key query also fills the queue with sequential ids |
| LocalDataModel.KeyQueryQueueIds | Service/src/main/java/com/android/car/media/localmediaplayer/DataModel.java:195-371 | on a fresh data model, a key query followed by its task sends one result, and the queue getQueue then returns holds that result's items in order with queue id equal to position, so its ids are unique |
| SourceConnection.BrowsingStateEquals | CommonMedia/src/main/java/com/android/car/media/common/source/MediaBrowserConnector.java:94-102 | equals on browsing states holds exactly when source, browser and status are all equal |
| SourceConnection.CounterAfterWraps | CommonMedia/src/main/java/com/android/car/media/common/source/MediaBrowserConnector.java:150-154 | k pre-increments of the int counter give the start plus k, wrapped to 32 bits |
| SourceConnection.StaleCallbackIgnored | CommonMedia/src/main/java/com/android/car/media/common/source/MediaBrowserConnector.java:163-174 | a callback stays invalid through the next 2^32-1 connections |
| SourceConnection.MediaBrowserConnector.constructor | CommonMedia/src/main/java/com/android/car/media/common/source/MediaBrowserConnector.java:150 | no source, no browser, counter 0 |
| SourceConnection.MediaBrowserConnector.SendNewState | CommonMedia/src/main/java/com/android/car/media/common/source/MediaBrowserConnector.java:202-212 | reports the status for the current source and browser, and nothing when either is null |
| SourceConnection.MediaBrowserConnector.ConnectTo | CommonMedia/src/main/java/com/android/car/media/common/source/MediaBrowserConnector.java:222-252 | DISCONNECTING for the old browser first iff it was connected; a null source leaves no browser, an unchanged counter and no CONNECTING; a source gets a new browser, the incremented counter as callback number, CONNECTING, and SUSPENDED if connect throws |
| SourceConnection.MediaBrowserConnector.OnConnected | CommonMedia/src/main/java/com/android/car/media/common/source/MediaBrowserConnector.java:163-185 | for the current callback only (its sequence number is the counter, as isValidCall checks): CONNECTED if the browser is connected, else REJECTED; a stale callback changes nothing |
| SourceConnection.ReconnectIgnoresOldCallback | CommonMedia/src/main/java/com/android/car/media/common/source/MediaBrowserConnector.java:150-185 | after connecting to a and then to b, the first connection's callback emits nothing and the second's emits exactly one state for b |
| SourceConnection.MediaBrowserConnector.OnConnectionFailed | CommonMedia/src/main/java/com/android/car/media/common/source/MediaBrowserConnector.java:188-192 | for the current callback only: REJECTED |
| SourceConnection.MediaBrowserConnector.OnConnectionSuspended | CommonMedia/src/main/java/com/android/car/media/common/source/MediaBrowserConnector.java:195-199 | for the current callback only: SUSPENDED |
| Playback.GetMainAction | CommonMedia/src/main/java/com/android/car/media/common/playback/PlaybackViewModel.java:395-425 | playing-like states: PAUSE iff PAUSE or PLAY_PAUSE is supported, else STOP iff STOP is, never PLAY; resting states: PLAY iff ACTION_PLAY is supported, else disabled; unknown states: disabled |
| Playback.ShouldDisplay | CommonMedia/src/main/java/com/android/car/media/common/playback/PlaybackViewModel.java:385-389 | false in STATE_NONE; otherwise iff there is metadata or a main action; without metadata, exactly the action-bit combinations that give a main action |
| Playback.IsSkipNextReserved | CommonMedia/src/main/java/com/android/car/media/common/playback/PlaybackViewModel.java:473-479 | true exactly when extras exist and some key mapped to true is one of the two skip-next reservation keys |
| Playback.IsSkipPreviousReserved | CommonMedia/src/main/java/com/android/car/media/common/playback/PlaybackViewModel.java:484-490 | true exactly when extras exist and some key mapped to true is one of the two skip-previous reservation keys |
| Playback.IsLoading | CommonMedia/src/main/java/com/android/car/media/common/playback/PlaybackViewModel.java:495-504 | true exactly in the seven transitional states (playing-like but not PLAYING), never while playing or resting |
| Playback.GetMaxProgress | CommonMedia/src/main/java/com/android/car/media/common/playback/PlaybackViewModel.java:437-440 | 0 without metadata, without a duration, or with a duration that is not a long; otherwise the duration |
| Playback.IsPlaying | CommonMedia/src/main/java/com/android/car/media/common/playback/PlaybackViewModel.java:445-447 | true exactly in a playing-like state that is not loading, that is STATE_PLAYING; its main action is then not play |
| Playback.IsSkipNextEnabled | CommonMedia/src/main/java/com/android/car/media/common/playback/PlaybackViewModel.java:452-454 | true exactly when bit 5 (ACTION_SKIP_TO_NEXT) of the actions mask is set |
| Playback.IsSkipPreviousEnabled | CommonMedia/src/main/java/com/android/car/media/common/playback/PlaybackViewModel.java:459-461 | true exactly when bit 4 (ACTION_SKIP_TO_PREVIOUS) of the actions mask is set |
| Playback.IsSeekToEnabled | CommonMedia/src/main/java/com/android/car/media/common/playback/PlaybackViewModel.java:466-468 | true exactly when bit 8 (ACTION_SEEK_TO) of the actions mask is set |
| Playback.GetRatingAction | CommonMedia/src/main/java/com/android/car/media/common/playback/PlaybackViewModel.java:567-585 | offered iff SET_RATING is supported and the session rates with hearts; the star is filled iff the item has a heart, and pressing it sets the opposite |
| Playback.GetCustomActions | CommonMedia/src/main/java/com/android/car/media/common/playback/PlaybackViewModel.java:551-564 | the rating action first when offered, then each of the state's custom actions in order, under the controller's package |
| Playback.FilterQueue | CommonMedia/src/main/java/com/android/car/media/common/playback/PlaybackViewModel.java:337-345 | the sanitised queue is never longer than the queue |
| Playback.FilterQueueConcat | CommonMedia/src/main/java/com/android/car/media/common/playback/PlaybackViewModel.java:337-345 | the filter keeps order: filtering a concatenation filters each part |
| Playback.FilterQueueExactly | CommonMedia/src/main/java/com/android/car/media/common/playback/PlaybackViewModel.java:337-345 | an entry is in the sanitised queue iff it comes from a non-null item with a description and a title |
| Playback.FilterQueueKeepsDisplayable | CommonMedia/src/main/java/com/android/car/media/common/playback/PlaybackViewModel.java:337-345 | a queue of displayable items is kept whole, in order |
| Playback.FilterQueueDropsHidden | CommonMedia/src/main/java/com/android/car/media/common/playback/PlaybackViewModel.java:337-347 | a queue without displayable items sanitises to the empty list |
| Playback.NormalizeMetadata | CommonMedia/src/main/java/com/android/car/media/common/playback/PlaybackViewModel.java:317-324 | null exactly when the metadata is null or MediaMetadata.equals finds it equal to the empty metadata (no standard text, every standard long 0, other keys ignored); otherwise unchanged |
| Playback.PlayerStatesProjection | CommonMedia/src/main/java/com/android/car/media/common/playback/PlaybackViewModel.java:385-504 | the local player's PLAYING state shows pause, next and previous and is not loading; PAUSED and STOPPED show play; both error states show no main action |
| Playback.MediaControllerCallback.constructor | CommonMedia/src/main/java/com/android/car/media/common/playback/PlaybackViewModel.java:249-255 | no browsing state, no controller, nothing published |
| Playback.MediaControllerCallback.UpdatePlaybackStatus | CommonMedia/src/main/java/com/android/car/media/common/playback/PlaybackViewModel.java:355-362 | the wrapper is published iff both controller and playback state are present, otherwise null |
| Playback.MediaControllerCallback.OnMetadataChanged | CommonMedia/src/main/java/com/android/car/media/common/playback/PlaybackViewModel.java:317-329 | stores and publishes the normalised metadata, then republishes the wrapper |
| Playback.MediaControllerCallback.OnQueueTitleChanged | CommonMedia/src/main/java/com/android/car/media/common/playback/PlaybackViewModel.java:332-334 | publishes the title |
| Playback.MediaControllerCallback.OnQueueChanged | CommonMedia/src/main/java/com/android/car/media/common/playback/PlaybackViewModel.java:337-347 | publishes the sanitised queue (empty for null) and has-queue iff it has more than one entry |
| Playback.MediaControllerCallback.OnPlaybackStateChanged | CommonMedia/src/main/java/com/android/car/media/common/playback/PlaybackViewModel.java:350-353 | stores the state and republishes the wrapper |
| Playback.MediaControllerCallback.SetMediaController | CommonMedia/src/main/java/com/android/car/media/common/playback/PlaybackViewModel.java:282-306 | every published value is the new controller's (or null for none) and the callback is registered with it |
| Playback.MediaControllerCallback.ReplayReports | CommonMedia/src/main/java/com/android/car/media/common/playback/PlaybackViewModel.java:290-303 | the replayed reports leave the normalised metadata, the state, the sanitised queue, whether it has more than one item, and the title of the controller (null for each without one) |
| Playback.MediaControllerCallback.OnSessionDestroyed | CommonMedia/src/main/java/com/android/car/media/common/playback/PlaybackViewModel.java:309-314 | everything published is cleared, with no unregistration |
| Playback.MediaControllerCallback.OnMediaBrowsingStateChanged | CommonMedia/src/main/java/com/android/car/media/common/playback/PlaybackViewModel.java:257-280 | an equal state changes nothing; otherwise the old controller is dropped (unregistered except on SUSPENDED) and a controller is installed iff the status is CONNECTED |
| Browse.NonNullItems | CommonMedia/src/main/java/com/android/car/media/common/browse/MediaItemsRepository.java:142-145 | the non-null filter is never longer than the list; with NonNullItemsConcat, NonNullItemsExactly and NonNullItemsAllPresent it is fixed item by item: the present items, in list order |
| Browse.NonNullItemsExactly | CommonMedia/src/main/java/com/android/car/media/common/browse/MediaItemsRepository.java:142-145 | an item is kept iff it occurs non-null |
| Browse.NonNullItemsAllPresent | CommonMedia/src/main/java/com/android/car/media/common/browse/MediaItemsRepository.java:142-145 | a list without nulls is kept whole, in order |
| Browse.NonNullItemsConcat | CommonMedia/src/main/java/com/android/car/media/common/browse/MediaItemsRepository.java:142-145 | the filter distributes over concatenation, so the kept items keep their order even when nulls are dropped |
| Browse.MediaItemsRepository.constructor | CommonMedia/src/main/java/com/android/car/media/common/browse/MediaItemsRepository.java:72-100 | no caches, root items loading, no search |
| Browse.MediaItemsRepository.GetCache | CommonMedia/src/main/java/com/android/car/media/common/browse/MediaItemsRepository.java:237-244 | returns the cache of the browsing state's source (null without a browsing state), created empty on first access and otherwise the stored one; the other caches are unchanged |
| Browse.MediaItemsRepository.GetMediaChildren | CommonMedia/src/main/java/com/android/car/media/common/browse/MediaItemsRepository.java:123-135 | a cached node keeps its live data and handle; an absent one is filed with an empty child list and a fresh loading live data; then the node is unsubscribed and resubscribed, crashing when there is no browsing state; no other field changes; the returned handle always names an existing live data |
| Browse.MediaItemsRepository.OnBrowseData | CommonMedia/src/main/java/com/android/car/media/common/browse/MediaItemsRepository.java:260-277 | an uncached parent changes nothing but the creation of the source's cache; a cached one stores the list as previous value and delivers (old, new) to its live data, and to the root items iff it is the root; no other field changes |
| Browse.MediaItemsRepository.OnChildrenLoaded | CommonMedia/src/main/java/com/android/car/media/common/browse/MediaItemsRepository.java:140-153 | the same delivery as data, with the non-null children as the list; no other field changes |
| Browse.MediaItemsRepository.OnBrowseError | CommonMedia/src/main/java/com/android/car/media/common/browse/MediaItemsRepository.java:156-163 | same delivery as data with a null list: an uncached parent only makes the source cache exist; a cached one stores null as previous value and delivers (old, null) to its live data, and to the root items iff it is the root; no other field changes |
| Browse.MediaItemsRepository.SetSearchQuery | CommonMedia/src/main/java/com/android/car/media/common/browse/MediaItemsRepository.java:167-175 | stores the query; an empty one clears the results and searches nothing; otherwise results are loading and the browser searches for it |
| Browse.MediaItemsRepository.OnSearchResult | CommonMedia/src/main/java/com/android/car/media/common/browse/MediaItemsRepository.java:179-188 | applies the non-null results only when the query is the current one |
| Browse.MediaItemsRepository.OnSearchError | CommonMedia/src/main/java/com/android/car/media/common/browse/MediaItemsRepository.java:191-196 | delivers null results only when the query is the current one |
| Browse.MediaItemsRepository.UnsubscribeNodes | CommonMedia/src/main/java/com/android/car/media/common/browse/MediaItemsRepository.java:247-252 | unsubscribes every cached node exactly once and keeps the cache |
| Browse.MediaItemsRepository.ClearNodes | CommonMedia/src/main/java/com/android/car/media/common/browse/MediaItemsRepository.java:255-258 | empties the node map without unsubscribing |
| Browse.MediaItemsRepository.OnConnected | CommonMedia/src/main/java/com/android/car/media/common/browse/MediaItemsRepository.java:219-223 | records the root id in the current source's cache, files the root node as a subscribed node would be, and subscribes it; no other field changes |
| Browse.MediaItemsRepository.OnDisconnecting | CommonMedia/src/main/java/com/android/car/media/common/browse/MediaItemsRepository.java:224-228 | unsubscribes every cached node, then clears the search results and the node map |
| Browse.MediaItemsRepository.OnConnectionLost | CommonMedia/src/main/java/com/android/car/media/common/browse/MediaItemsRepository.java:229-233 | delivers null to the root node if it is cached, then empties the search results and the current cache's node map; no other field changes |
| Browse.MediaItemsRepository.OnMediaBrowsingStateChanged | CommonMedia/src/main/java/com/android/car/media/common/browse/MediaItemsRepository.java:207-235 | a null state is stored and nothing else changes; otherwise it is also published, and then CONNECTING only sets the root items loading; CONNECTED records the root id, files the root node and unsubscribes then subscribes it; DISCONNECTING unsubscribes every node, empties the node map and the search results; REJECTED/SUSPENDED deliver null to the root, empty the node map and the search results; no other field changes in any case |
| Browse.UnsubscribeAll | CommonMedia/src/main/java/com/android/car/media/common/browse/MediaItemsRepository.java:249-251 | one unsubscribe of this browser per node, covering every node |
| Browse.RepeatedChildrenShareHandle | CommonMedia/src/main/java/com/android/car/media/common/browse/MediaItemsRepository.java:123-134 | asking twice for the same node returns the same live data and creates at most one |

## Left out

- Metadata keys carry their kind (standard text, standard long, or ignored) instead of the framework's key names. The list of MediaMetadata's standard keys lives in the Android framework, which is not part of this model.
- The decoder's internals (`reset`, `setDataSource`, `prepare`, `seekTo`, `getCurrentPosition`) are not modelled. A load is one answer, `loadOk`, and the position is a field.
- `requestAudioFocus`, `abandonAudioFocus` and the focus request objects are not modelled. The broker's answer is the parameter `granted`, the same for every request within one command.
- Notifications, `PendingIntent`s, resource strings, icons, and the custom action's icon and extras are left out. These are platform UI calls.
- Protobuf-nano and Base64 are left out, because they are foreign library calls. `Encode`/`Decode` is an abstract pair that round-trips; a corrupt value is a separate case.
- `Collections.shuffle` randomness is not modelled. The order it produces is a parameter, required to be a permutation of the remaining items.
- ContentResolver and Cursor I/O and `DataModel.getMetadata` are not modelled. Cursor rows are an input, and a failed or null cursor is a response of its own.
- AsyncTask threading is left out. In particular, a cancelled task that still runs to completion is not modelled: only the pending task runs.
- LiveData observers, the `Handler` and the main-thread checks are not modelled. Callbacks are sequential method calls.
- `MediaSourceViewModel`, `PermissionsActivity` and the float playback-speed constants are not part of this model.
- `PlaybackController`, the colours factory and `MediaItemMetadata` details are not modelled. The colours value records only the package name it was extracted for.
- `LocalDataModel.ParseLong` does not accept non-ASCII Unicode digits, which `Long.parseLong` accepts.
- LocalDataModel: the key and title columns are assumed present in every cursor, and a missing subtitle or path reads as "".
- LocalDataModel.DataModel: `LocalMediaBrowserService.GENRES_ID` is a constructor parameter, because that class is not part of this model.
- LocalPlayer: null titles, subtitles and paths in descriptions and songs are modelled as the empty string.
- Playback.MediaControllerCallback.OnMediaBrowsingStateChanged takes a non-null browsing state, so the model leaves out the null case. A null argument is a no-op only while the stored state is still null. After a non-null state it is not equal, and reading its status throws a NullPointerException: at PlaybackViewModel.java:265 when a controller is installed, else at line 277. The model does not include that crash.
- Browse.UnsubscribeAll: the key set's iteration order is not modelled; the contract states only that every node is unsubscribed once.
- Browse: the `MediaItemsRepository.get` singleton and the `Bundle`-option overloads of the browse and search callbacks are left out. The overloads only forward to the plain ones.

## Findings

| source | as written | input that shows it | evidently intended | confidence | as-written member | corrected member |
|---|---|---|---|---|---|---|
| Service/src/main/java/com/android/car/media/localmediaplayer/Player.java:395-403 | `onSkipToQueueItem(id)` uses the queue id, cast to int, as a position in the queue with no bounds check | save [a (id 0), b (id 1), c (id 2)], delete b's file and restart: the queue is [a (id 0), c (id 2)], and skipping to c's id 2 throws IndexOutOfBoundsException | look the id up among the items' queue ids; an unknown id publishes the error state and crashes nothing | not executed | LocalPlayer.Player.OnSkipToQueueItem, LocalPlayer.StaleRestoreBreaksQueueIds | LocalPlayer.Player.OnSkipToQueueItemById |
