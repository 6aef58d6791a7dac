/** The state of one guild's `MusicQueue` (utils/musicQueue.js) as a value,
    and one step function per operation and per asynchronous callback. The
    class in music_queue.dfy updates its fields in place and proves each of
    its methods against the step function of the same name; the properties
    of the queue are proved here, about the step functions.

    External effects become data: the resolver's answer is a parameter, a
    spawned decoder is a numbered handle, the voice connection is the id of
    its channel, a timer is an armed flag or a count of pending calls, and
    every command sent to the player, the decoder or the connection is
    appended to an `effects` log. */
module QueueState {
  import opened Outcomes
  import opened Constants
  import opened Tracks
  import opened Text
  import opened DecoderPipeline

  type ChannelId = string
  /** A spawned decoder process. */
  type Handle = nat

  /** A command sent to something outside the queue. */
  datatype Effect =
    | ResolveRequested(url: string)                  // `ytdlp.execPromise([url, ...])`
    | DecoderSpawned(handle: Handle, args: seq<string>)
    | ResourcePlayed(handle: Handle)                 // `player.play(resource)`
    | PlayerStopped                                  // `player.stop()`
    | PlayerPaused
    | PlayerUnpaused
    | DecoderKilled(handle: Handle)                   // `kill('SIGKILL')`
    | ConnectionJoined(channel: ChannelId)            // `joinVoiceChannel`
    | PlayerSubscribed(channel: ChannelId)            // `connection.subscribe(player)`
    | ConnectionDestroyed(channel: ChannelId)         // `connection.destroy()`
    | PlayerReplaced                                  // listeners removed, fresh player

  datatype Snapshot = Snapshot(
    songs: seq<Song>,
    currentSong: Option<Song>,
    isPlaying: bool,
    waitingForNext: bool,
    isProcessingNext: bool,
    isConnecting: bool,
    retryCount: nat,
    retriedSongs: set<string>,
    /** `inactivityTimeout` is set */
    timerArmed: bool,
    /** the channel of `connection`, `None` for `null` */
    connection: Option<ChannelId>,
    /** `currentFfmpeg` */
    decoder: Option<Handle>,
    /** the next handle a spawn returns */
    nextHandle: Handle,
    /** the player's status is Paused */
    playerPaused: bool,
    /** the player's Idle/Playing/error listeners are attached */
    playerListening: bool,
    /** `setTimeout(() => this.playNext(), ...)` calls not yet run */
    pendingPlayNext: nat,
    /** `playNext` calls suspended at the resolver */
    pendingResolves: nat,
    effects: seq<Effect>)

  /** How the voice connection attempt in `play` ends. */
  datatype ConnectOutcome = Ready | TimedOut | JoinFailed
  datatype ConnectError = ConnectionTimeout | ConnectionFailed

  /** An operation's return value with the state it leaves. */
  datatype Step<R> = Step(result: R, state: Snapshot)

  /** `new MusicQueue(guildId)` */
  function Initial(): Snapshot
  {
    Snapshot([], None, false, false, false, false, 0, {}, false, None, None, 0, false, true, 0, 0, [])
  }

  // ---------------------------------------------------------------------
  // Helpers shared by several operations
  // ---------------------------------------------------------------------

  /** The kill command sent when the decoder slot holds a live process. */
  function Killed(decoder: Option<Handle>): seq<Effect>
  {
    if decoder.Some? then [DecoderKilled(decoder.value)] else []
  }

  /** `if (currentFfmpeg && !currentFfmpeg.killed) { kill; currentFfmpeg = null }`;
      a live handle is one that has not been killed. */
  function KillDecoder(s: Snapshot): Snapshot
  {
    s.(decoder := None, effects := s.effects + Killed(s.decoder))
  }

  /** The connection's Destroyed listener (utils/musicQueue.js:195-219): the
      player is stopped, then the decoder killed. */
  function DestroyedListener(s: Snapshot): Snapshot
  {
    s.(connection := None, isConnecting := false, decoder := None,
       isPlaying := false, isProcessingNext := false, waitingForNext := false,
       effects := s.effects + [PlayerStopped] + Killed(s.decoder))
  }

  /** `connection.destroy()`: the connection enters Destroyed and its
      listener runs at once. */
  function DestroyConnection(s: Snapshot): Snapshot
    requires s.connection.Some?
  {
    DestroyedListener(s.(effects := s.effects + [ConnectionDestroyed(s.connection.value)]))
  }

  // ---------------------------------------------------------------------
  // Operations
  // ---------------------------------------------------------------------

  /** `addSong(song)`: the new length, or QUEUE_FULL. */
  function AddSong(s: Snapshot, song: Song): Step<Result<nat, string>>
  {
    if |s.songs| >= QueueMaxSize then Step(Failure(QueueFullMessage), s)
    else
      var t := s.(songs := s.songs + [song], timerArmed := false);
      Step(Success(|t.songs|), t)
  }

  /** `playNext()` up to its suspension at the resolver. */
  function PlayNextBegin(s: Snapshot): Snapshot
  {
    if s.isProcessingNext then s
    else if s.songs == [] then
      s.(waitingForNext := false, isPlaying := false, currentSong := None, timerArmed := true)
    else
      var head := s.songs[0];
      s.(isProcessingNext := true, waitingForNext := false, currentSong := Some(head), songs := s.songs[1..],
         isPlaying := true, timerArmed := false, effects := s.effects + [ResolveRequested(head.url)],
         pendingResolves := s.pendingResolves + 1)
  }

  /** The retry policy (utils/musicQueue.js:435-461): requeue at the head
      once per URL while the counter is below the maximum, else drop. */
  function PlayFailed(s: Snapshot): Snapshot
  {
    if s.currentSong.Some? && s.retryCount < MaxRetries && s.currentSong.value.url !in s.retriedSongs then
      var song := s.currentSong.value;
      s.(retryCount := s.retryCount + 1, retriedSongs := s.retriedSongs + {song.url},
         isProcessingNext := false, songs := [song] + s.songs, currentSong := None,
         pendingPlayNext := s.pendingPlayNext + 1)
    else
      s.(retryCount := 0,
         retriedSongs := if s.currentSong.Some? then s.retriedSongs - {s.currentSong.value.url} else s.retriedSongs,
         isProcessingNext := false, effects := s.effects + [PlayerStopped])
  }

  /** The decoder is spawned on `directUrl` and its output played; the
      song's retry bookkeeping is cleared. */
  function StartDecoder(s: Snapshot, directUrl: string): Snapshot
    requires s.currentSong.Some?
  {
    var song := s.currentSong.value;
    var h := s.nextHandle;
    s.(decoder := Some(h), nextHandle := h + 1,
       effects := s.effects + [DecoderSpawned(h, DecoderArgs(directUrl, song.duration)), ResourcePlayed(h)],
       playerPaused := false, retryCount := 0, retriedSongs := s.retriedSongs - {song.url},
       isProcessingNext := false)
  }

  /** The rest of `playNext()` once the resolver answered `output`. It reads
      `currentSong` afresh: a `stop()` during the wait leaves it null, and
      reading its duration then throws into the retry policy. */
  function PlayNextResume(s: Snapshot, output: Result<string, string>): Snapshot
    requires s.pendingResolves > 0
  {
    var directUrl := ResolveDirectUrl(output);
    var t := if directUrl.None? || s.currentSong.None? then PlayFailed(s) else StartDecoder(s, directUrl.value);
    t.(pendingResolves := s.pendingResolves - 1)
  }

  /** `stop()`: the hard reset. */
  function Stop(s: Snapshot): Snapshot
  {
    var t := s.(songs := [], isPlaying := false, currentSong := None, waitingForNext := false,
                isProcessingNext := false, timerArmed := false, decoder := None,
                effects := s.effects + Killed(s.decoder) + [PlayerStopped]);
    if t.connection.Some? then DestroyConnection(t) else t
  }

  /** `cleanup()`: listeners off, decoder killed, connection destroyed,
      timer cleared. */
  function Cleanup(s: Snapshot): Snapshot
  {
    var t := KillDecoder(s.(playerListening := false));
    var u := if t.connection.Some? then DestroyConnection(t) else t;
    u.(timerArmed := false)
  }

  /** The channel-switch branch of `play` (utils/musicQueue.js:93-156). */
  function SwitchChannel(s: Snapshot): Snapshot
    requires s.connection.Some?
  {
    var savedQueue := s.songs;
    var t := DestroyConnection(KillDecoder(s));
    ResetAfterSwitch(ReplacePlayer(t), savedQueue)
  }

  /** The old player's listeners removed, a fresh listening player. */
  function ReplacePlayer(s: Snapshot): Snapshot
  {
    s.(effects := s.effects + [PlayerReplaced], playerListening := true, playerPaused := false)
  }

  /** Every flag and the retry bookkeeping reset; the saved queue restored. */
  function ResetAfterSwitch(s: Snapshot, savedQueue: seq<Song>): Snapshot
  {
    s.(currentSong := None, isPlaying := false, waitingForNext := false, isProcessingNext := false,
       isConnecting := false, retryCount := 0, retriedSongs := {}, songs := savedQueue)
  }

  /** The connect branch of `play` (utils/musicQueue.js:159-254), with the
      transport's answer as a parameter. */
  function Connect(s: Snapshot, channel: ChannelId, outcome: ConnectOutcome): Step<Result<(), ConnectError>>
  {
    match outcome
    case JoinFailed => Step(Failure(ConnectionFailed), s.(isConnecting := false))
    case TimedOut =>
      var u := s.(connection := Some(channel), isConnecting := false, effects := s.effects + [ConnectionJoined(channel)]);
      Step(Failure(ConnectionTimeout), DestroyConnection(u))
    case Ready =>
      Step(Success(()), s.(connection := Some(channel), isConnecting := false,
                           effects := s.effects + [ConnectionJoined(channel), PlayerSubscribed(channel)]))
  }

  /** `play(voiceChannel)`: whether it started playback, or the connection
      error it rethrows. */
  function Play(s: Snapshot, channel: ChannelId, outcome: ConnectOutcome): Step<Result<bool, ConnectError>>
  {
    if s.connection == Some(channel) then
      if !s.isPlaying && |s.songs| > 0 && !s.isProcessingNext then Step(Success(true), PlayNextBegin(s))
      else Step(Success(false), s)
    else
      var t := if s.connection.Some? then SwitchChannel(s) else s;
      var c := if t.connection.None? && !t.isConnecting then Connect(t, channel, outcome) else Step(Success(()), t);
      if c.result.Failure? then Step(Failure(c.result.error), c.state)
      else
        var u := c.state;
        if !u.isPlaying && |u.songs| > 0 then Step(Success(true), PlayNextBegin(u))
        else Step(Success(false), u)
  }

  function Pause(s: Snapshot): Step<bool>
  {
    if s.isPlaying then Step(true, s.(effects := s.effects + [PlayerPaused], playerPaused := true)) else Step(false, s)
  }

  function Resume(s: Snapshot): Step<bool>
  {
    if s.playerPaused then Step(true, s.(effects := s.effects + [PlayerUnpaused], playerPaused := false)) else Step(false, s)
  }

  function Skip(s: Snapshot): Step<bool>
  {
    if s.isPlaying then Step(true, s.(effects := s.effects + [PlayerStopped])) else Step(false, s)
  }

  // ---------------------------------------------------------------------
  // Callbacks
  // ---------------------------------------------------------------------

  /** The player reports Idle (utils/musicQueue.js:25-31). */
  function OnPlayerIdle(s: Snapshot): Snapshot
  {
    var s := s.(playerPaused := false);
    if s.playerListening && !s.waitingForNext then
      s.(waitingForNext := true, pendingPlayNext := s.pendingPlayNext + 1)
    else s
  }

  /** The player reports Playing (utils/musicQueue.js:33-36). */
  function OnPlayerPlaying(s: Snapshot): Snapshot
  {
    var s := s.(playerPaused := false);
    if s.playerListening then s.(waitingForNext := false) else s
  }

  /** The player reports an error (utils/musicQueue.js:38-44). */
  function OnPlayerError(s: Snapshot): Snapshot
  {
    if s.playerListening then s.(waitingForNext := false, isProcessingNext := false, effects := s.effects + [PlayerStopped]) else s
  }

  /** The decoder's output stream fails; a premature close is ignored. */
  function OnStreamError(s: Snapshot, prematureClose: bool): Snapshot
  {
    if prematureClose then s else s.(isProcessingNext := false, effects := s.effects + [PlayerStopped])
  }

  /** The decoder process reports an error. */
  function OnDecoderError(s: Snapshot): Snapshot
  {
    s.(isProcessingNext := false, effects := s.effects + [PlayerStopped])
  }

  /** Decoder `h` exits; the slot is cleared only if it still holds `h`. */
  function OnDecoderExit(s: Snapshot, h: Handle): Snapshot
  {
    if s.decoder == Some(h) then s.(decoder := None) else s
  }

  /** The connection is destroyed from outside the queue (the Disconnected
      handler giving up, or the transport). */
  function OnConnectionDestroyed(s: Snapshot): Snapshot
    requires s.connection.Some?
  {
    DestroyedListener(s)
  }

  /** A pending `setTimeout(() => this.playNext(), ...)` fires. */
  function RunScheduledPlayNext(s: Snapshot): Snapshot
    requires s.pendingPlayNext > 0
  {
    PlayNextBegin(s.(pendingPlayNext := s.pendingPlayNext - 1))
  }

  /** The inactivity timer fires and calls `stop()`. */
  function FireInactivityTimeout(s: Snapshot): Snapshot
    requires s.timerArmed
  {
    Stop(s)
  }
}
