# Discord music bot: the per-guild playback queue and the input validators

This project models the core of a Discord music bot in Dafny:

- `utils/musicQueue.js`: the `MusicQueue` object that owns one guild's song queue, its voice connection and its ffmpeg decoder, and the `QueueManager` that keeps one queue per guild.
- `utils/validators.js`: the pure checks that commands run before they touch a queue.

## Layout

- `constants.dfy` (`Constants`): the constants the core reads from `utils/constants.js`. These are the queue limit (200), `MAX_RETRIES` (2), the normalization filters, the ffmpeg options, the required permissions and the user-facing messages.
- `outcomes.dfy`, `tracks.dfy`: `Option`/`Result` and the song record (`title`, `url`, `duration`, `thumbnail`, `requestedBy`, `platform`).
- `text.dfy` (`Text`): JavaScript's `startsWith`, `includes` and `trim` on `seq<char>`, with their characterisations.
- `decoder_pipeline.dfy` (`DecoderPipeline`): what `playNext` does with the resolver's output (trim, must start with `http`) and the ffmpeg argument list it builds (input options, loudnorm below two hours or dynaudnorm otherwise, raw PCM output).
- `validators.dfy` (`Validators`): the seven validators. The regular expressions are written as matchers:
  - the YouTube playlist and video patterns are searched for anywhere in the query, leftmost match first;
  - the three SoundCloud patterns are anchored.

  Each matcher is proved equal to a declarative description of its pattern, the `...Pattern`/`...Shape` ghost predicates.
- `queue_state.dfy` (`QueueState`): a `Snapshot` of a queue's fields and one step function per operation and callback. This is the specification the class is proved against. Outside effects appear as an ordered log of `Effect`s: resolver requests, decoder spawns and kills, player and connection commands.
- `queue_laws.dfy` (`QueueLaws`): what the source promises about those steps. It covers FIFO order, single-flight `playNext`, the retry policy, `stop`/`cleanup` teardown, channel switching and pause/resume. It also defines the invariant `Inv`, proved to hold in every state reachable from a new queue by any sequence of operations and callbacks.
- `music_queue.dfy` (`MusicQueues.MusicQueue`): the class itself, with the source's fields. Each method follows the source's statements and ensures `Snap() == QueueState.X(old(Snap()))`. Every public method also keeps `Valid()`, which is `QueueLaws.Inv(Snap())`. Field updates go through small helper methods (setters, `KillFfmpeg`, `DestroyConnection`, ...), each with a narrow `modifies` frame.
- `queue_manager.dfy` (`QueueRegistry.QueueManager`): the map from guild id to queue.

Asynchrony is modelled as separate entry points:

- **Resolver.** `playNext` runs up to the call to the resolver (`PlayNext`, which logs `ResolveRequested` and counts a pending answer). `ResumePlayNext(output)` runs the rest when the answer arrives.
- **Timers.** A `setTimeout(() => this.playNext(), …)` is a pending count that `RunScheduledPlayNext` consumes. The inactivity timer is a flag that `OnInactivityTimeout` fires.
- **Listeners.** The player's, decoder's and connection's listeners are the `On…` callback methods.
- **Decoder handles.** A spawned decoder is identified by a handle number.

## Model

| member | source | states |
|---|---|---|
| MusicQueues.MusicQueue.constructor | utils/musicQueue.js:8-45 | a new queue is empty and idle, its player listening, no connection, decoder or timer; the invariant holds |
| MusicQueues.MusicQueue.AddSong | utils/musicQueue.js:62-71 | the new state and result are `QueueState.AddSong`'s (see `QueueLaws.AddSongContract`) and the invariant is kept |
| MusicQueues.MusicQueue.PlayNext | utils/musicQueue.js:270-300 | the state is `PlayNextBegin` of the old one (single flight, empty queue arms the timer, head taken and the resolver asked); invariant kept |
| MusicQueues.MusicQueue.PlayFailed | utils/musicQueue.js:428-462 | the retry policy: requeue at the front once, or drop with counter reset and a player stop, exactly as `QueueState.PlayFailed` |
| MusicQueues.MusicQueue.ResumePlayNext | utils/musicQueue.js:302-462 | after the resolver answers, the state is `PlayNextResume` of the old one (decoder started or failure handled); invariant kept |
| MusicQueues.MusicQueue.StartDecoder | utils/musicQueue.js:323-426 | the decoder gets the argument list `DecoderArgs` of the URL and duration, its output is played and the song's retry mark is cleared |
| MusicQueues.MusicQueue.SwitchChannel | utils/musicQueue.js:93-152 | the channel-switch protocol as `QueueState.SwitchChannel` (see `QueueLaws.SwitchChannelResets`); invariant kept |
| MusicQueues.MusicQueue.Connect | utils/musicQueue.js:159-254 | joining ends in Ready, time-out or join failure as `QueueState.Connect` says; invariant kept |
| MusicQueues.MusicQueue.Play | utils/musicQueue.js:73-268 | result and new state are `QueueState.Play`'s over its three branches; invariant kept |
| MusicQueues.MusicQueue.Pause | utils/musicQueue.js:465-471 | pauses exactly when playing, as `QueueState.Pause`; invariant kept |
| MusicQueues.MusicQueue.Resume | utils/musicQueue.js:473-479 | unpauses exactly when the player is paused, as `QueueState.Resume`; invariant kept |
| MusicQueues.MusicQueue.Skip | utils/musicQueue.js:481-487 | stops the player exactly when playing, as `QueueState.Skip`; invariant kept |
| MusicQueues.MusicQueue.Stop | utils/musicQueue.js:489-526 | the state is `QueueState.Stop` of the old one (see `QueueLaws.StopResets`, `StopCommands`); invariant kept |
| MusicQueues.MusicQueue.Cleanup | utils/musicQueue.js:540-572 | the state is `QueueState.Cleanup` of the old one (see `QueueLaws.CleanupReleases`); invariant kept |
| MusicQueues.MusicQueue.GetQueue | utils/musicQueue.js:528-530 | the queued songs |
| MusicQueues.MusicQueue.GetCurrentSong | utils/musicQueue.js:532-534 | the current song |
| MusicQueues.MusicQueue.IsPaused | utils/musicQueue.js:536-538 | whether the player is paused |
| MusicQueues.MusicQueue.OnPlayerIdle | utils/musicQueue.js:25-31 | Idle schedules one `playNext` unless one is already awaited, once listeners are attached; invariant kept |
| MusicQueues.MusicQueue.OnPlayerPlaying | utils/musicQueue.js:33-36 | Playing clears the waiting flag; invariant kept |
| MusicQueues.MusicQueue.OnPlayerError | utils/musicQueue.js:38-44 | a player error clears both flags and stops the player; invariant kept |
| MusicQueues.MusicQueue.OnStreamError | utils/musicQueue.js:380-389 | a premature close changes nothing; another stream error clears `isProcessingNext` and stops the player |
| MusicQueues.MusicQueue.OnFfmpegError | utils/musicQueue.js:397-404 | a decoder error clears `isProcessingNext` and stops the player |
| MusicQueues.MusicQueue.OnFfmpegExit | utils/musicQueue.js:370-375 | the exit of the current decoder empties the decoder slot; the exit of an older one changes nothing |
| MusicQueues.MusicQueue.OnConnectionLost | utils/musicQueue.js:195-219 | a destroyed connection stops playback, kills the decoder and forgets the connection; invariant kept |
| MusicQueues.MusicQueue.RunScheduledPlayNext | utils/musicQueue.js:441-446 | a `playNext` scheduled by the Idle handler or the retry path runs, consuming one pending timer; invariant kept |
| MusicQueues.MusicQueue.OnInactivityTimeout | utils/musicQueue.js:54-60 | the inactivity timer fires `stop()` |
| QueueRegistry.QueueManager.constructor | utils/musicQueue.js:575-578 | no guild has a queue |
| QueueRegistry.QueueManager.GetQueue | utils/musicQueue.js:580-585 | a guild's queue is created once, fresh and initial, and returned unchanged on every later call; other guilds untouched |
| QueueRegistry.QueueManager.DeleteQueue | utils/musicQueue.js:587-594 | the guild's queue is stopped then cleaned up and removed from the map; nothing else changes |
| QueueLaws.AddSongContract | utils/musicQueue.js:62-71 | a full queue (200) refuses with the message and no change; otherwise the song is appended, its 1-based position returned, the timer cleared |
| QueueLaws.AddAllAppends | utils/musicQueue.js:62-71 | adding songs one after another while there is room appends them in order |
| QueueLaws.PlayNextSingleFlight | utils/musicQueue.js:274-277 | a `playNext` during another changes nothing, so two in a row act as one |
| QueueLaws.PlayNextOnEmptyQueue | utils/musicQueue.js:282-289 | an empty queue ends playback and arms the inactivity timer |
| QueueLaws.PlayNextTakesHead | utils/musicQueue.js:292-310 | the head becomes current, the rest stays queued, the resolver is asked for the head's URL |
| QueueLaws.PlayNextSucceeds | utils/musicQueue.js:312-426 | a usable URL spawns the decoder with `DecoderArgs`, plays it, resets the counter and unmarks the song |
| QueueLaws.RequestedAppend | utils/musicQueue.js:302-310 | the URLs requested from the resolver over two logs concatenate |
| QueueLaws.UrlsAppend | utils/musicQueue.js:292-294 | the URLs of two song lists concatenate |
| QueueLaws.RequestedSince | utils/musicQueue.js:302-310 | requests made since a point split at any later point |
| QueueLaws.AdvanceTakesHead | utils/musicQueue.js:270-426 | one successful advance plays the head and requests exactly its URL |
| QueueLaws.PlaysInQueueOrder | utils/musicQueue.js:270-426 | with usable answers, n advances play the first n queued songs in queue order, requesting exactly their URLs in that order |
| QueueLaws.FirstFailureRequeues | utils/musicQueue.js:435-446 | the first failure of an unmarked song below the limit puts it back at the front, marks it, counts it and schedules a `playNext` |
| QueueLaws.LaterFailureDrops | utils/musicQueue.js:447-461 | a failure of a marked song, or at the limit, drops it, resets the counter, unmarks it and stops the player |
| QueueLaws.DroppedSongStallsWithoutIdle | utils/musicQueue.js:447-461 | after a drop the dropped song stays current and the queue playing with nothing scheduled, so a same-channel `play` returns false and changes nothing until an Idle notification arrives |
| QueueLaws.AlwaysFailingSongRetriedOnce | utils/musicQueue.js:428-462 | a song that never resolves is requested twice and then dropped, the counter back at 0 and the marks as before |
| QueueLaws.FirstAttemptFails | utils/musicQueue.js:428-446 | the first failed attempt leaves the queue as it was, the song marked and one `playNext` scheduled |
| QueueLaws.MarkedSongDroppedAtOnce | utils/musicQueue.js:447-461 | a song still marked is dropped at its first failure |
| QueueLaws.StoppedRetryIsNotRetriedAgain | utils/musicQueue.js:489-526 | `stop()` keeps the marks, so a stopped song queued again is dropped at its first failure |
| QueueLaws.StopResets | utils/musicQueue.js:489-526 | after `stop()` nothing is queued or current, every flag is down, no timer, decoder or connection; retry bookkeeping kept |
| QueueLaws.StopCommands | utils/musicQueue.js:489-526 | `stop()` kills a live decoder, stops the player and destroys a live connection, in that order |
| QueueLaws.StopIdempotent | utils/musicQueue.js:489-526 | `stop()` twice equals once but for one more player stop |
| QueueLaws.CleanupReleases | utils/musicQueue.js:540-572 | `cleanup()` detaches the listeners, kills the decoder, destroys the connection, clears the timer and keeps the songs |
| QueueLaws.DeletedQueueReleased | utils/musicQueue.js:587-594 | a deleted queue holds no song, timer, decoder or connection, and no longer listens to its player |
| QueueLaws.CleanedQueueIgnoresPlayer | utils/musicQueue.js:540-548 | after `cleanup()` the player's Idle, Playing and error events change nothing of the queue's |
| QueueLaws.PlaySameChannel | utils/musicQueue.js:79-90 | on the same channel, `play` starts playback and returns true exactly when idle with songs and no `playNext` in progress; else nothing changes |
| QueueLaws.SwitchChannelResets | utils/musicQueue.js:93-152 | a switch keeps the queue exactly, kills the decoder, destroys the old connection, installs a listening player and resets all flags and retry bookkeeping |
| QueueLaws.PlayInOtherChannel | utils/musicQueue.js:93-263 | switching to a channel that connects plays the saved queue from its head with fresh retry bookkeeping |
| QueueLaws.PlayConnectFails | utils/musicQueue.js:227-253 | a connect that times out or fails returns that error, leaves no connection and keeps the queue |
| QueueLaws.PauseResume | utils/musicQueue.js:465-479 | pause then resume of a playing queue returns to the same state but for the two player commands, on the modelled player whose pause always takes effect (see "## Left out") |
| QueueLaws.SkipThenIdleSchedulesNext | utils/musicQueue.js:25-31 | skip stops the player and the resulting Idle schedules exactly one `playNext` |
| QueueLaws.IdleQueueRefuses | utils/musicQueue.js:465-487 | with nothing playing, pause and skip return false and change nothing |
| QueueLaws.InitialInv | utils/musicQueue.js:8-45 | a new queue satisfies the invariant |
| QueueLaws.PlayNextBeginInv | utils/musicQueue.js:270-310 | `playNext` up to the resolver keeps the invariant |
| QueueLaws.PlayFailedInv | utils/musicQueue.js:428-462 | the failure path leaves a settled state with no `playNext` in progress |
| QueueLaws.RetryInv | utils/musicQueue.js:435-446 | the requeue keeps at most 201 songs held and the counter within its bound |
| QueueLaws.StartDecoderInv | utils/musicQueue.js:323-426 | starting the decoder leaves a settled state with no `playNext` in progress |
| QueueLaws.PlayNextResumeInv | utils/musicQueue.js:302-462 | the rest of `playNext` keeps the invariant |
| QueueLaws.AddSongInv | utils/musicQueue.js:62-71 | `addSong` keeps the invariant |
| QueueLaws.StopInv | utils/musicQueue.js:489-526 | `stop()` keeps the invariant |
| QueueLaws.DestroyConnectionInv | utils/musicQueue.js:195-219 | destroying the connection keeps the invariant |
| QueueLaws.CleanupInv | utils/musicQueue.js:540-572 | `cleanup()` keeps the invariant |
| QueueLaws.PlayerCommandsInv | utils/musicQueue.js:465-487 | pause, resume and skip keep the invariant |
| QueueLaws.PlayerCallbacksInv | utils/musicQueue.js:25-44 | the player's Idle, Playing and error events keep the invariant |
| QueueLaws.DecoderCallbacksInv | utils/musicQueue.js:370-404 | the decoder's exit, stream-error and error events keep the invariant |
| QueueLaws.ConnectionLostInv | utils/musicQueue.js:195-219 | a destroyed connection keeps the invariant |
| QueueLaws.SwitchChannelInv | utils/musicQueue.js:93-152 | a channel switch keeps the invariant |
| QueueLaws.ConnectInv | utils/musicQueue.js:159-254 | connecting keeps the invariant whatever the outcome |
| QueueLaws.PlayInv | utils/musicQueue.js:73-268 | `play` keeps the invariant |
| QueueLaws.ApplyInv | utils/musicQueue.js:8-572 | every operation or callback that can occur keeps the invariant |
| QueueLaws.CommandInv | utils/musicQueue.js:62-572 | the public commands keep the invariant |
| QueueLaws.ContinuationInv | utils/musicQueue.js:54-60 | resolver answers, scheduled `playNext` and the inactivity timeout keep the invariant |
| QueueLaws.ResolverAnswersInv | utils/musicQueue.js:302-462 | a resolver answer keeps the invariant |
| QueueLaws.ScheduledPlayNextInv | utils/musicQueue.js:441-446 | a scheduled `playNext` keeps the invariant |
| QueueLaws.CallbackInv | utils/musicQueue.js:25-44 | the player, decoder and connection callbacks keep the invariant |
| QueueLaws.RunInv | utils/musicQueue.js:8-572 | any sequence of events keeps the invariant |
| QueueLaws.ReachableBounds | utils/musicQueue.js:62-71 | in every reachable state at most 201 songs are queued and the retry counter is at most `MAX_RETRIES` |
| QueueLaws.QueueCanHoldOneMoreThanMax | utils/musicQueue.js:435-446 | the 201 is reached: a retried song goes back in front of a queue that filled to 200 meanwhile |
| DecoderPipeline.ResolveDirectUrl | utils/musicQueue.js:312-315 | a URL is accepted exactly when the resolver succeeded and its trimmed output starts with `http`; the result is that trimmed output |
| DecoderPipeline.ResolverLineAccepted | utils/musicQueue.js:312-315 | a URL followed by the resolver's trailing newline is accepted as the URL itself |
| DecoderPipeline.ResolveDirectUrlIdempotent | utils/musicQueue.js:312-315 | an accepted URL is accepted again unchanged |
| DecoderPipeline.ResolverGarbageRejected | utils/musicQueue.js:312-315 | output whose trimmed text does not start with `http` is rejected |
| DecoderPipeline.BuildDecoderArgs | utils/musicQueue.js:323-360 | the argument list built step by step is `DecoderArgs` of the URL and duration |
| DecoderPipeline.DecoderArgsLayout | utils/musicQueue.js:323-360 | 21 arguments: the URL after `-i`, loudnorm below 7200 s and dynaudnorm otherwise after `-af`, raw 48 kHz stereo PCM to stdout last |
| DecoderPipeline.ValueAfter | utils/musicQueue.js:323-360 | the word after the first occurrence of a flag, or none when the flag is absent |
| DecoderPipeline.ValueAfterFirst | utils/musicQueue.js:323-360 | the value of a flag is the word after its first occurrence |
| DecoderPipeline.DecoderArgsRoundTrip | utils/musicQueue.js:323-360 | reading the built arguments back gives the input URL and the chosen filter |
| Text.StartsAtConcat | utils/validators.js:164-171 | matching a concatenation is matching its parts one after the other |
| Text.IncludesFrom | utils/validators.js:182 | true exactly when the text occurs at or after the position |
| Text.Includes | utils/validators.js:182 | `includes`: true exactly when the text occurs somewhere |
| Text.TrimStartIndex | utils/musicQueue.js:312 | the first position from which no leading white space remains |
| Text.TrimEndIndex | utils/musicQueue.js:312 | the last position before trailing white space |
| Text.Trim | utils/musicQueue.js:312 | `trim()` is a slice of the input with no white space at either end |
| Text.TrimPieceUnique | utils/musicQueue.js:312 | white space around an unpadded text trims to exactly that text |
| Text.TrimOfTrimmed | utils/musicQueue.js:312 | an unpadded text trims to itself |
| Text.TrimIdempotent | utils/musicQueue.js:312 | trimming twice is trimming once |
| Text.TrimDropsTrailingSpace | utils/musicQueue.js:312 | trailing white space alone is removed |
| Validators.IdRunEnd | utils/validators.js:109 | the end of the longest run of `[a-zA-Z0-9_-]` from a position |
| Validators.AlnumRunEnd | utils/validators.js:168 | the end of the longest run of `[a-zA-Z0-9]` from a position |
| Validators.IdRunEndIsUnique | utils/validators.js:109 | a maximal run end is the one computed |
| Validators.AlnumRunEndIsUnique | utils/validators.js:168 | a maximal run end is the one computed |
| Validators.ListParamAt | utils/validators.js:109 | a `[?&]list=` match starts exactly where the pattern's prefix and at least one id character occur; the id is non-empty |
| Validators.ListParamAtMeaning | utils/validators.js:109 | the match found at a position is exactly the greedy playlist-id pattern there |
| Validators.FindListParam | utils/validators.js:109-111 | the leftmost playlist match, or none when no position matches |
| Validators.VideoIdAt | utils/validators.js:115 | an 11-character id at the position |
| Validators.MatchGroups | utils/validators.js:115 | a match of the optional-group sequence yields an 11-character id |
| Validators.MatchAlternatives | utils/validators.js:115 | a match with one alternative of a group yields an 11-character id |
| Validators.MatchGroupsSound | utils/validators.js:115 | a match of the groups satisfies the pattern |
| Validators.MatchAlternativesSound | utils/validators.js:115 | a match via the alternatives satisfies the pattern with one of them |
| Validators.MatchGroupsComplete | utils/validators.js:115 | whenever the pattern holds, the matcher finds a match |
| Validators.MatchAlternativesComplete | utils/validators.js:115 | whenever one alternative leads to the pattern, the matcher finds a match |
| Validators.VideoMatchAt | utils/validators.js:115 | a video match at a position yields an 11-character id |
| Validators.VideoMatchAtMeaning | utils/validators.js:115 | the matcher finds a match at a position exactly when the video pattern occurs there |
| Validators.FindVideo | utils/validators.js:118-120 | the leftmost video match, or none when no position matches |
| Validators.ValidateYouTubeInput | utils/validators.js:107-155 | a URL exactly when a video or a playlist id is found; the rebuilt watch or playlist URL; a playlist exactly when a list id is found; else the all-empty answer |
| Validators.YouTubeInputMeaning | utils/validators.js:107-155 | the video id is present exactly when the video pattern occurs, and is the leftmost occurrence; likewise the playlist id |
| Validators.FirstAlternativeWins | utils/validators.js:115 | the first alternative that leads to a match decides it |
| Validators.WatchUrlVideoMatch | utils/validators.js:114-125 | a rebuilt watch URL matches the video pattern with its own id |
| Validators.FindListParamSkips | utils/validators.js:109 | positions where no playlist match starts are skipped by the search |
| Validators.NoListParamInWatchUrl | utils/validators.js:122-125 | no playlist match starts within the watch prefix and the video id |
| Validators.WatchUrlParts | utils/validators.js:122-125 | a rebuilt watch URL is its prefix, the id and the optional `&list=` suffix |
| Validators.WatchUrlPlaylist | utils/validators.js:109-125 | the playlist found in a rebuilt watch URL is the one put in |
| Validators.PlaylistSuffixMatches | utils/validators.js:109-125 | an `&list=` suffix matches the playlist pattern with its id |
| Validators.WatchUrlRecognised | utils/validators.js:107-155 | validating the URL this function builds gives back the same video and playlist ids and URL |
| Validators.TrackPathOkSound | utils/validators.js:166 | an accepted path has the track-URL shape |
| Validators.TrackPathOkComplete | utils/validators.js:166 | every path of the track-URL shape is accepted |
| Validators.TrackPathOkMeaning | utils/validators.js:166 | accepted exactly when it has the track-URL shape |
| Validators.ShortPathOkMeaning | utils/validators.js:168 | accepted exactly when it has the short-link shape |
| Validators.HostAndPathMeaning | utils/validators.js:164-171 | a host plus path is accepted exactly when it is one of the three SoundCloud forms |
| Validators.IsSoundCloudUrlMeaning | utils/validators.js:164-174 | the three patterns accept exactly an optional scheme, optional `www.` on the main host, and a matching path |
| Validators.NormalizeUrl | utils/validators.js:176-179 | the URL has an http(s) scheme; an existing one is kept, otherwise `https://` is prefixed |
| Validators.NormalizeUrlIdempotent | utils/validators.js:176-179 | normalising twice is normalising once |
| Validators.ValidateSoundCloudInput | utils/validators.js:162-199 | a URL exactly when one of the patterns matches; the URL carries a scheme; a playlist exactly when it contains `/sets/` |
| Validators.SchemeAddedStillMatches | utils/validators.js:164-179 | a scheme-less SoundCloud URL still matches once `https://` is added |
| Validators.SoundCloudNormalizedRecognised | utils/validators.js:162-199 | validating the normalised URL gives the same answer |
| Validators.ValidateMusicInput | utils/validators.js:206-234 | SoundCloud exactly when the SoundCloud validator accepts; otherwise the YouTube answer; a URL exactly when either accepts |
| Validators.MusicInputMeaning | utils/validators.js:206-234 | URL exactly when either validator accepts; otherwise a YouTube search with every field empty |
| Validators.ValidateVoiceChannel | utils/validators.js:13-29 | valid exactly when the member is in a voice channel, which is returned; otherwise the error message |
| Validators.Every | utils/validators.js:40-42 | true exactly when every required permission is granted |
| Validators.ValidateBotPermissions | utils/validators.js:37-55 | valid exactly when Connect and Speak are both granted; otherwise the permissions message |
| Validators.ValidateMusicPlaying | utils/validators.js:62-77 | valid exactly when a song is current or queued; otherwise the message |
| Validators.ValidateSongPlaying | utils/validators.js:84-100 | valid exactly when a song is current, which is returned; otherwise the message |
| Validators.SongPlayingIsStricter | utils/validators.js:62-100 | a current song passes both checks; a queue with only waiting songs passes the first but not the second |
| Validators.TrackUrlWithoutSchemeMatches | utils/validators.js:166 | `soundcloud.com/artist/track` without a scheme matches the track pattern |
| Validators.SoundCloudTrackWithoutScheme | utils/validators.js:162-234 | such a URL is recognised as SoundCloud, gets `https://` and is routed to SoundCloud |
| Validators.ShortQueryNotSoundCloud | utils/validators.js:164-171 | a query under 15 characters matches no SoundCloud pattern |
| Validators.ShortQueryNoVideo | utils/validators.js:115-120 | a query shorter than 11 characters names no video |
| Validators.ShortQueryIsSearch | utils/validators.js:107-234 | a query under 7 characters, such as the empty one, is a YouTube search |

## Behaviour worth knowing

The model keeps each of these as the code has it.

- **Queue size.** `addSong` refuses once `QUEUE.MAX_SIZE` (200) songs are queued (`utils/musicQueue.js:63-64`). The retry path's `songs.unshift(currentSong)` (`utils/musicQueue.js:440`) puts the failed song back in front without that check. So 201 songs can be queued while none is current (`QueueLaws.QueueCanHoldOneMoreThanMax`). The bound that holds is on queued plus current songs, at most 201 (`QueueLaws.Inv`, `QueueLaws.ReachableBounds`).
- **Number of retries.** `QUEUE.MAX_RETRIES` is 2, and the log line `attempt ${retryCount}/${maxRetries}` (`utils/musicQueue.js:435-438`) suggests two retries per song. But the guard also requires that the song's URL is not already in `retriedSongs`, so a song is retried once: it is requested twice in total and then dropped (`QueueLaws.AlwaysFailingSongRetriedOnce`). The counter matters only across songs. It is reset when a song plays or is dropped, but not by `stop()`.
- **Retry marks after `stop()`.** `stop()` clears neither `retryCount` nor `retriedSongs`. A song stopped while awaiting its retry stays marked and is dropped at its next failure (`QueueLaws.StoppedRetryIsNotRetriedAgain`).
- **Dropped songs.** The drop path (`utils/musicQueue.js:455-460`) leaves `currentSong` and `isPlaying` set, schedules nothing and calls `player.stop()`. Only an Idle notification moves the queue on. Until one arrives, `play` on the same channel returns false (`QueueLaws.DroppedSongStallsWithoutIdle`). The drop is reached from a `playNext` run after Idle or after a retry delay, so the player is usually idle already. Its stop then produces no Idle notification, and the queue stays like this. Nothing here was executed; this is read off the code.

## Proof helpers

These lemmas have no counterpart in the source; they are steps of the proofs above:

- `Text.StartsWithIsStartsAtZero`
- `Validators.SplitAfter`, `Validators.SchemeNeedsH`, `Validators.StartsAtMiddle`, `Validators.WatchPrefixOneQuery`, `Validators.FindListParamStep`, `Validators.ListParamStartChars`, `Validators.MatchGroupsNeedsRoom`, `Validators.MatchAlternativesNeedsRoom`
- `QueueLaws.AllGoodTail`, `QueueLaws.InQueueOrderStep`

## Left out

- Logging (`console.log`/`console.error`), stderr collection from the decoder, and the resource's inline volume: none of them affects state.
- The yt-dlp and ffmpeg processes themselves. The resolver's output is a parameter of `ResumePlayNext`, and a spawned decoder is a fresh handle number. A synchronous throw from `spawn` is not modelled.
- Timer durations: the 500 ms settle delay, the 2 s retry delay, the 1 s Idle delay and the 5-minute inactivity timeout. Timers are pending counts or a flag that fire as separate events, so the model allows any order among them.
- Interleaving inside `play`. `play` is treated as atomic: how joining ends (Ready, time-out or join failure) is a parameter, so no other event runs while it awaits `entersState`. Hence `isConnecting` is false between operations.
- The connection's `Disconnected` recovery handler (`utils/musicQueue.js:177-193`). Only its destroying outcome is modelled, as the connection-lost event `OnConnectionLost`. Its reconnect attempts are left out because they involve the Discord library's internal state.
- The connection's `error` listener and the once-only Ready log: they only log.
- The `Destroyed` listener runs synchronously inside `destroy()`. Its effect on state is folded into `DestroyConnection`.
- Discord objects (interactions, channels, clients and the audio player) are abstracted:
  - a channel becomes its id;
  - a permission set is a `set<string>`;
  - a missing `permissionsFor` result is not modelled;
  - the player is a paused flag, a listening flag and a command log, with no Idle/Buffering/Playing status (see the four lines below);
  - null checks on `this.player` are not modelled, because the player always exists.
- `MusicQueues.MusicQueue.OnFfmpegExit`: a spawn overwrites `currentFfmpeg` without killing the previous decoder. The model keeps this; only the exit of the current decoder clears the slot.
- A song whose duration is undefined is not modelled. Callers set `duration: info.duration || 0` (`commands/play.js`), so the duration is always a number and a duration of 0 selects loudnorm.
- MusicQueues.MusicQueue.Pause: the player's status is not modelled. `player.pause()` is assumed to take effect whenever `isPlaying`, including while the resolver is still working and nothing plays yet. The voice library ignores a pause unless the player is playing, so there `isPaused()` stays false.
- MusicQueues.MusicQueue.Resume: it reads the modelled paused flag. After a pause that the library ignored, the real `isPaused()` is false and `resume()` returns false, where the model returns true. `QueueLaws.PauseResume` holds for the modelled player only.
- MusicQueues.MusicQueue.IsPaused: this is the modelled flag, not `player.state.status === AudioPlayerStatus.Paused`, and the two differ after an ignored pause.
- MusicQueues.MusicQueue.OnPlayerIdle: Idle is a callback that may occur in any state. The model does not tie it to a real transition of the player into Idle. Stopping an idle player emits no Idle in the library, but the model does not exclude one.
