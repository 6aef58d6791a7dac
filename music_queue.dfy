/** `MusicQueue` (utils/musicQueue.js:7-573): one guild's queue, an object
    whose methods update its fields in place. Each method follows the
    source's statements and is proved to leave exactly the state the step
    function of the same name in `QueueState` describes; `Valid` is the
    invariant of `QueueLaws`, established by the constructor and kept by
    every method. */
module MusicQueues {
  import opened Outcomes
  import opened Tracks
  import opened Constants
  import opened DecoderPipeline
  import opened QueueState
  import QueueLaws

  class MusicQueue {
    const guildId: string
    var songs: seq<Song>
    var currentSong: Option<Song>
    var isPlaying: bool
    var waitingForNext: bool
    var isProcessingNext: bool
    var isConnecting: bool
    var retryCount: nat
    var retriedSongs: set<string>
    /** `inactivityTimeout` holds a timer */
    var inactivityTimerArmed: bool
    /** the channel `connection` is joined to */
    var connection: Option<ChannelId>
    var currentFfmpeg: Option<Handle>
    /** the handle the next spawned decoder gets */
    var nextHandle: Handle
    /** `player.state.status === AudioPlayerStatus.Paused` */
    var playerPaused: bool
    /** the Idle, Playing and error listeners are attached to `player` */
    var playerListening: bool
    /** scheduled `playNext` calls not yet run */
    var pendingPlayNext: nat
    /** `playNext` calls suspended at the resolver */
    var pendingResolves: nat
    /** commands sent to the resolver, the decoder, the player and the
        connection, in order */
    var effects: seq<Effect>

    function Snap(): Snapshot
      reads this
    {
      Snapshot(songs, currentSong, isPlaying, waitingForNext, isProcessingNext, isConnecting,
               retryCount, retriedSongs, inactivityTimerArmed, connection, currentFfmpeg, nextHandle,
               playerPaused, playerListening, pendingPlayNext, pendingResolves, effects)
    }

    ghost predicate Valid()
      reads this
    {
      QueueLaws.Inv(Snap())
    }

    constructor(guildId: string)
      ensures this.guildId == guildId && Snap() == Initial()
      ensures Valid()
    {
      this.guildId := guildId;
      songs := [];
      isPlaying := false;
      connection := None;
      currentSong := None;
      inactivityTimerArmed := false;
      waitingForNext := false;
      currentFfmpeg := None;
      nextHandle := 0;
      isProcessingNext := false;
      isConnecting := false;
      retryCount := 0;
      retriedSongs := {};
      playerPaused := false;
      playerListening := true;
      pendingPlayNext := 0;
      pendingResolves := 0;
      effects := [];
      QueueLaws.InitialInv();
    }

    // -------------------------------------------------------------------
    // Field assignments. Each statement `this.f = v` of the source is a
    // call to one of these, which states the whole new state.
    // -------------------------------------------------------------------

    method SetSongs(q: seq<Song>)
      modifies this`songs
      ensures Snap() == old(Snap()).(songs := q)
    {
      songs := q;
    }

    method SetCurrentSong(c: Option<Song>)
      modifies this`currentSong
      ensures Snap() == old(Snap()).(currentSong := c)
    {
      currentSong := c;
    }

    method SetPlaying(b: bool)
      modifies this`isPlaying
      ensures Snap() == old(Snap()).(isPlaying := b)
    {
      isPlaying := b;
    }

    method SetWaitingForNext(b: bool)
      modifies this`waitingForNext
      ensures Snap() == old(Snap()).(waitingForNext := b)
    {
      waitingForNext := b;
    }

    method SetProcessingNext(b: bool)
      modifies this`isProcessingNext
      ensures Snap() == old(Snap()).(isProcessingNext := b)
    {
      isProcessingNext := b;
    }

    method SetConnecting(b: bool)
      modifies this`isConnecting
      ensures Snap() == old(Snap()).(isConnecting := b)
    {
      isConnecting := b;
    }

    method SetConnection(c: Option<ChannelId>)
      modifies this`connection
      ensures Snap() == old(Snap()).(connection := c)
    {
      connection := c;
    }

    /** `retryCount` and `retriedSongs` together. */
    method SetRetries(count: nat, urls: set<string>)
      modifies this`retryCount, this`retriedSongs
      ensures Snap() == old(Snap()).(retryCount := count, retriedSongs := urls)
    {
      retryCount := count;
      retriedSongs := urls;
    }

    /** The retry bookkeeping at the end of an attempt to play, which
        also clears `isProcessingNext`. */
    method EndAttempt(count: nat, urls: set<string>)
      modifies this`retryCount, this`retriedSongs, this`isProcessingNext
      ensures Snap() == old(Snap()).(retryCount := count, retriedSongs := urls, isProcessingNext := false)
    {
      SetRetries(count, urls);
      SetProcessingNext(false);
    }

    method SetPlayerPaused(b: bool)
      modifies this`playerPaused
      ensures Snap() == old(Snap()).(playerPaused := b)
    {
      playerPaused := b;
    }

    method SetPlayerListening(b: bool)
      modifies this`playerListening
      ensures Snap() == old(Snap()).(playerListening := b)
    {
      playerListening := b;
    }

    /** Commands sent out, appended to the log. */
    method Emit(e: seq<Effect>)
      modifies this`effects
      ensures Snap() == old(Snap()).(effects := old(effects) + e)
    {
      effects := effects + e;
    }

    // -------------------------------------------------------------------
    // Helpers shared by several methods
    // -------------------------------------------------------------------

    method ClearInactivityTimeout()
      modifies this`inactivityTimerArmed
      ensures Snap() == old(Snap()).(timerArmed := false)
    {
      inactivityTimerArmed := false;
    }

    method StartInactivityTimeout()
      modifies this`inactivityTimerArmed
      ensures Snap() == old(Snap()).(timerArmed := true)
    {
      ClearInactivityTimeout();
      inactivityTimerArmed := true;
    }

    /** `setTimeout(() => this.playNext(), ...)` */
    method SchedulePlayNext()
      modifies this`pendingPlayNext
      ensures Snap() == old(Snap()).(pendingPlayNext := old(pendingPlayNext) + 1)
    {
      pendingPlayNext := pendingPlayNext + 1;
    }

    /** `player.stop()`: a request; the player reports Idle later. */
    method StopPlayer()
      modifies this`effects
      ensures Snap() == old(Snap()).(effects := old(effects) + [PlayerStopped])
    {
      Emit([PlayerStopped]);
    }

    method KillFfmpeg()
      modifies this`effects, this`currentFfmpeg
      ensures Snap() == KillDecoder(old(Snap()))
    {
      if currentFfmpeg.Some? {
        effects := effects + [DecoderKilled(currentFfmpeg.value)];
        currentFfmpeg := None;
      }
    }

    /** The connection's Destroyed listener. */
    method OnDestroyed()
      modifies this`connection, this`isConnecting, this`effects, this`currentFfmpeg,
               this`isPlaying, this`isProcessingNext, this`waitingForNext
      ensures Snap() == DestroyedListener(old(Snap()))
    {
      SetConnection(None);
      SetConnecting(false);
      StopPlayer();
      KillFfmpeg();
      SetPlaying(false);
      SetProcessingNext(false);
      SetWaitingForNext(false);
    }

    /** `connection.destroy()`, whose Destroyed listener runs at once. */
    method DestroyConnection()
      requires connection.Some?
      modifies this`connection, this`isConnecting, this`effects, this`currentFfmpeg,
               this`isPlaying, this`isProcessingNext, this`waitingForNext
      ensures Snap() == QueueState.DestroyConnection(old(Snap()))
    {
      Emit([ConnectionDestroyed(connection.value)]);
      OnDestroyed();
    }

    // -------------------------------------------------------------------
    // Operations
    // -------------------------------------------------------------------

    method AddSong(song: Song) returns (r: Result<nat, string>)
      requires Valid()
      modifies this`songs, this`inactivityTimerArmed
      ensures Step(r, Snap()) == QueueState.AddSong(old(Snap()), song)
      ensures Valid()
    {
      if |songs| >= QueueMaxSize {
        return Failure(QueueFullMessage);
      }
      SetSongs(songs + [song]);
      ClearInactivityTimeout();
      r := Success(|songs|);
      QueueLaws.AddSongInv(old(Snap()), song);
    }

    /** The resolver is started on `url`; its answer comes back later. */
    method RequestDirectUrl(url: string)
      modifies this`effects, this`pendingResolves
      ensures Snap() == old(Snap()).(effects := old(effects) + [ResolveRequested(url)],
                                     pendingResolves := old(pendingResolves) + 1)
    {
      Emit([ResolveRequested(url)]);
      pendingResolves := pendingResolves + 1;
    }

    /** `playNext()` up to the call to the resolver; the rest is
        `ResumePlayNext`. */
    method PlayNext()
      requires Valid()
      modifies this`isProcessingNext, this`waitingForNext, this`isPlaying, this`currentSong, this`songs,
               this`inactivityTimerArmed, this`effects, this`pendingResolves
      ensures Snap() == PlayNextBegin(old(Snap()))
      ensures Valid()
    {
      if isProcessingNext {
        return;
      }
      ghost var s0 := Snap();
      SetProcessingNext(true);
      SetWaitingForNext(false);
      if |songs| == 0 {
        GoIdle();
      } else {
        TakeHead();
      }
      QueueLaws.PlayNextBeginInv(s0);
    }

    /** `playNext` on an empty queue. */
    method GoIdle()
      modifies this`isProcessingNext, this`isPlaying, this`currentSong, this`inactivityTimerArmed
      ensures Snap() == old(Snap()).(isPlaying := false, currentSong := None, isProcessingNext := false, timerArmed := true)
    {
      SetPlaying(false);
      SetCurrentSong(None);
      SetProcessingNext(false);
      StartInactivityTimeout();
    }

    /** `playNext` takes the head of the queue and asks for its URL. */
    method TakeHead()
      requires |songs| > 0
      modifies this`isPlaying, this`currentSong, this`songs, this`inactivityTimerArmed, this`effects, this`pendingResolves
      ensures Snap() == old(Snap()).(currentSong := Some(old(songs)[0]), songs := old(songs)[1..], isPlaying := true,
                                     timerArmed := false, effects := old(effects) + [ResolveRequested(old(songs)[0].url)],
                                     pendingResolves := old(pendingResolves) + 1)
    {
      var head := songs[0];
      SetCurrentSong(Some(head));
      SetSongs(songs[1..]);
      SetPlaying(true);
      ClearInactivityTimeout();
      RequestDirectUrl(head.url);
    }

    /** The `catch` of `playNext`: requeue once, or drop and stop the
        player. */
    method PlayFailed()
      modifies this`retryCount, this`retriedSongs, this`isProcessingNext, this`songs,
               this`currentSong, this`pendingPlayNext, this`effects
      ensures Snap() == QueueState.PlayFailed(old(Snap()))
    {
      if currentSong.Some? && retryCount < MaxRetries && currentSong.value.url !in retriedSongs {
        RetrySong();
      } else {
        SkipFailedSong();
      }
    }

    /** The song goes back to the head of the queue and `playNext` is
        scheduled again. */
    method RetrySong()
      requires currentSong.Some?
      modifies this`retryCount, this`retriedSongs, this`isProcessingNext, this`songs,
               this`currentSong, this`pendingPlayNext
      ensures var song := old(currentSong).value;
              Snap() == old(Snap()).(retryCount := old(retryCount) + 1, retriedSongs := old(retriedSongs) + {song.url},
                                     isProcessingNext := false, songs := [song] + old(songs), currentSong := None,
                                     pendingPlayNext := old(pendingPlayNext) + 1)
    {
      var song := currentSong.value;
      EndAttempt(retryCount + 1, retriedSongs + {song.url});
      SetSongs([song] + songs);
      SetCurrentSong(None);
      SchedulePlayNext();
    }

    /** The song is given up and the player stopped, whose Idle event
        moves on. */
    method SkipFailedSong()
      modifies this`retryCount, this`retriedSongs, this`isProcessingNext, this`effects
      ensures Snap() == old(Snap()).(retryCount := 0,
                                     retriedSongs := if old(currentSong).Some? then old(retriedSongs) - {old(currentSong).value.url}
                                                     else old(retriedSongs),
                                     isProcessingNext := false, effects := old(effects) + [PlayerStopped])
    {
      EndAttempt(0, if currentSong.Some? then retriedSongs - {currentSong.value.url} else retriedSongs);
      StopPlayer();
    }

    /** The rest of `playNext()` once the resolver answered `output`. */
    method ResumePlayNext(output: Result<string, string>)
      requires Valid() && pendingResolves > 0
      modifies this
      ensures Snap() == PlayNextResume(old(Snap()), output)
      ensures Valid()
    {
      ghost var s0 := Snap();
      TryToPlay(output);
      QueueLaws.PlayNextResumeInv(s0, output);
    }

    /** Checking the resolver's output, then playing the song or handling
        the failure. */
    method TryToPlay(output: Result<string, string>)
      requires pendingResolves > 0
      modifies this`retryCount, this`retriedSongs, this`isProcessingNext, this`songs, this`currentSong,
               this`pendingPlayNext, this`effects, this`currentFfmpeg, this`nextHandle, this`playerPaused,
               this`pendingResolves
      ensures Snap() == PlayNextResume(old(Snap()), output)
    {
      var directUrl := ResolveDirectUrl(output);
      if directUrl.None? || currentSong.None? {
        PlayFailed();
      } else {
        StartDecoder(directUrl.value);
      }
      pendingResolves := pendingResolves - 1;
    }

    /** `spawn('ffmpeg', args)`: the new process gets the next handle. */
    method SpawnDecoder(args: seq<string>) returns (ffmpeg: Handle)
      modifies this`nextHandle, this`effects
      ensures ffmpeg == old(nextHandle)
      ensures Snap() == old(Snap()).(nextHandle := ffmpeg + 1, effects := old(effects) + [DecoderSpawned(ffmpeg, args)])
    {
      ffmpeg := nextHandle;
      nextHandle := nextHandle + 1;
      Emit([DecoderSpawned(ffmpeg, args)]);
    }

    /** `player.play(resource)` on the decoder's output. */
    method PlayResource(ffmpeg: Handle)
      modifies this`effects, this`playerPaused
      ensures Snap() == old(Snap()).(effects := old(effects) + [ResourcePlayed(ffmpeg)], playerPaused := false)
    {
      Emit([ResourcePlayed(ffmpeg)]);
      SetPlayerPaused(false);
    }

    /** Spawning the decoder and playing its output. */
    method StartDecoder(directUrl: string)
      requires currentSong.Some?
      modifies this`currentFfmpeg, this`nextHandle, this`effects, this`playerPaused, this`retryCount,
               this`retriedSongs, this`isProcessingNext
      ensures Snap() == QueueState.StartDecoder(old(Snap()), directUrl)
    {
      var song := currentSong.value;
      var ffmpegArgs := BuildDecoderArgs(directUrl, song.duration);
      var ffmpeg := SpawnDecoder(ffmpegArgs);
      currentFfmpeg := Some(ffmpeg);
      PlayResource(ffmpeg);
      EndAttempt(0, retriedSongs - {song.url});
    }

    /** Listeners removed from the old player and attached to a new one. */
    method ReplacePlayer()
      modifies this`effects, this`playerListening, this`playerPaused
      ensures Snap() == QueueState.ReplacePlayer(old(Snap()))
    {
      Emit([PlayerReplaced]);
      SetPlayerListening(true);
      SetPlayerPaused(false);
    }

    /** The channel-switch branch of `play`. */
    method SwitchChannel()
      requires Valid() && connection.Some?
      modifies this
      ensures Snap() == QueueState.SwitchChannel(old(Snap()))
      ensures Valid()
    {
      ghost var s0 := Snap();
      var savedQueue := songs;
      KillFfmpeg();
      DestroyConnection();
      ReplacePlayer();
      ResetAfterSwitch(savedQueue);
      QueueLaws.SwitchChannelInv(s0);
    }

    /** "Reset ALL state flags" and restore the saved queue. */
    method ResetAfterSwitch(savedQueue: seq<Song>)
      modifies this`currentSong, this`isPlaying, this`waitingForNext, this`isProcessingNext,
               this`isConnecting, this`retryCount, this`retriedSongs, this`songs
      ensures Snap() == QueueState.ResetAfterSwitch(old(Snap()), savedQueue)
    {
      SetCurrentSong(None);
      SetPlaying(false);
      SetWaitingForNext(false);
      SetProcessingNext(false);
      SetConnecting(false);
      SetRetries(0, {});
      SetSongs(savedQueue);
    }

    /** The connect branch of `play`; `outcome` is how joining ends. */
    method Connect(channel: ChannelId, outcome: ConnectOutcome) returns (r: Result<(), ConnectError>)
      requires Valid() && connection.None?
      modifies this
      ensures Step(r, Snap()) == QueueState.Connect(old(Snap()), channel, outcome)
      ensures Valid()
    {
      ghost var s0 := Snap();
      r := JoinAndAwaitReady(channel, outcome);
      QueueLaws.ConnectInv(s0, channel, outcome);
    }

    /** `joinVoiceChannel`, then waiting for Ready: `outcome` says how it
        ends. */
    method JoinAndAwaitReady(channel: ChannelId, outcome: ConnectOutcome) returns (r: Result<(), ConnectError>)
      requires connection.None?
      modifies this`connection, this`isConnecting, this`effects, this`currentFfmpeg,
               this`isPlaying, this`isProcessingNext, this`waitingForNext
      ensures Step(r, Snap()) == QueueState.Connect(old(Snap()), channel, outcome)
    {
      SetConnecting(true);
      if outcome == JoinFailed {
        SetConnecting(false);
        r := Failure(ConnectionFailed);
      } else {
        JoinChannel(channel);
        if outcome == TimedOut {
          AbandonConnection();
          r := Failure(ConnectionTimeout);
        } else {
          SubscribePlayer(channel);
          r := Success(());
        }
      }
    }

    /** `joinVoiceChannel`: the connection exists from here on. */
    method JoinChannel(channel: ChannelId)
      modifies this`connection, this`effects
      ensures Snap() == old(Snap()).(connection := Some(channel), effects := old(effects) + [ConnectionJoined(channel)])
    {
      SetConnection(Some(channel));
      Emit([ConnectionJoined(channel)]);
    }

    /** The connection did not become Ready in time: it is destroyed. */
    method AbandonConnection()
      requires connection.Some?
      modifies this`connection, this`isConnecting, this`effects, this`currentFfmpeg,
               this`isPlaying, this`isProcessingNext, this`waitingForNext
      ensures Snap() == QueueState.DestroyConnection(old(Snap()).(isConnecting := false))
    {
      SetConnecting(false);
      DestroyConnection();
    }

    /** `connection.subscribe(player)` once the connection is Ready. */
    method SubscribePlayer(channel: ChannelId)
      modifies this`isConnecting, this`effects
      ensures Snap() == old(Snap()).(isConnecting := false, effects := old(effects) + [PlayerSubscribed(channel)])
    {
      Emit([PlayerSubscribed(channel)]);
      SetConnecting(false);
    }

    method Play(channel: ChannelId, outcome: ConnectOutcome) returns (r: Result<bool, ConnectError>)
      requires Valid()
      modifies this
      ensures Step(r, Snap()) == QueueState.Play(old(Snap()), channel, outcome)
      ensures Valid()
    {
      if connection == Some(channel) {
        if !isPlaying && |songs| > 0 && !isProcessingNext {
          PlayNext();
          return Success(true);
        }
        return Success(false);
      }
      if connection.Some? {
        SwitchChannel();
      }
      if connection.None? && !isConnecting {
        var c := Connect(channel, outcome);
        if c.Failure? {
          return Failure(c.error);
        }
      }
      if !isPlaying && |songs| > 0 {
        PlayNext();
        r := Success(true);
      } else {
        r := Success(false);
      }
    }

    method Pause() returns (r: bool)
      requires Valid()
      modifies this`effects, this`playerPaused
      ensures Step(r, Snap()) == QueueState.Pause(old(Snap()))
      ensures Valid()
    {
      if isPlaying {
        Emit([PlayerPaused]);
        SetPlayerPaused(true);
        return true;
      }
      return false;
    }

    method Resume() returns (r: bool)
      requires Valid()
      modifies this`effects, this`playerPaused
      ensures Step(r, Snap()) == QueueState.Resume(old(Snap()))
      ensures Valid()
    {
      if IsPaused() {
        Emit([PlayerUnpaused]);
        SetPlayerPaused(false);
        return true;
      }
      return false;
    }

    method Skip() returns (r: bool)
      requires Valid()
      modifies this`effects
      ensures Step(r, Snap()) == QueueState.Skip(old(Snap()))
      ensures Valid()
    {
      if isPlaying {
        StopPlayer();
        return true;
      }
      return false;
    }

    method Stop()
      requires Valid()
      modifies this
      ensures Snap() == QueueState.Stop(old(Snap()))
      ensures Valid()
    {
      ghost var s0 := Snap();
      ClearAndStop();
      if connection.Some? {
        DestroyConnection();
      }
      QueueLaws.StopInv(s0);
    }

    /** `stop()` up to destroying the connection. */
    method ClearAndStop()
      modifies this`songs, this`isPlaying, this`currentSong, this`waitingForNext, this`isProcessingNext,
               this`inactivityTimerArmed, this`currentFfmpeg, this`effects
      ensures Snap() == old(Snap()).(songs := [], isPlaying := false, currentSong := None, waitingForNext := false,
                                     isProcessingNext := false, timerArmed := false, decoder := None,
                                     effects := old(effects) + Killed(old(currentFfmpeg)) + [PlayerStopped])
    {
      SetSongs([]);
      SetPlaying(false);
      SetCurrentSong(None);
      SetWaitingForNext(false);
      SetProcessingNext(false);
      ClearInactivityTimeout();
      KillFfmpeg();
      StopPlayer();
    }

    method Cleanup()
      requires Valid()
      modifies this
      ensures Snap() == QueueState.Cleanup(old(Snap()))
      ensures Valid()
    {
      ghost var s0 := Snap();
      ReleaseResources();
      QueueLaws.CleanupInv(s0);
    }

    /** `cleanup()`: listeners off, decoder killed, connection destroyed,
        timer cleared. */
    method ReleaseResources()
      modifies this`playerListening, this`currentFfmpeg, this`effects, this`connection, this`isConnecting,
               this`isPlaying, this`isProcessingNext, this`waitingForNext, this`inactivityTimerArmed
      ensures Snap() == QueueState.Cleanup(old(Snap()))
    {
      SetPlayerListening(false);
      KillFfmpeg();
      if connection.Some? {
        DestroyConnection();
      }
      ClearInactivityTimeout();
    }

    // -------------------------------------------------------------------
    // Accessors
    // -------------------------------------------------------------------

    function GetQueue(): (r: seq<Song>)
      reads this
      ensures r == Snap().songs
    {
      songs
    }

    function GetCurrentSong(): (r: Option<Song>)
      reads this
      ensures r == Snap().currentSong
    {
      currentSong
    }

    function IsPaused(): (r: bool)
      reads this
      ensures r == Snap().playerPaused
    {
      playerPaused
    }

    // -------------------------------------------------------------------
    // Callbacks
    // -------------------------------------------------------------------

    method OnPlayerIdle()
      requires Valid()
      modifies this
      ensures Snap() == QueueState.OnPlayerIdle(old(Snap()))
      ensures Valid()
    {
      SetPlayerPaused(false);
      if playerListening && !waitingForNext {
        SetWaitingForNext(true);
        SchedulePlayNext();
      }
    }

    method OnPlayerPlaying()
      requires Valid()
      modifies this
      ensures Snap() == QueueState.OnPlayerPlaying(old(Snap()))
      ensures Valid()
    {
      SetPlayerPaused(false);
      if playerListening {
        SetWaitingForNext(false);
      }
    }

    method OnPlayerError()
      requires Valid()
      modifies this
      ensures Snap() == QueueState.OnPlayerError(old(Snap()))
      ensures Valid()
    {
      if playerListening {
        SetWaitingForNext(false);
        SetProcessingNext(false);
        StopPlayer();
      }
    }

    method OnStreamError(prematureClose: bool)
      requires Valid()
      modifies this
      ensures Snap() == QueueState.OnStreamError(old(Snap()), prematureClose)
      ensures Valid()
    {
      if prematureClose {
        return;
      }
      SetProcessingNext(false);
      StopPlayer();
    }

    method OnFfmpegError()
      requires Valid()
      modifies this
      ensures Snap() == OnDecoderError(old(Snap()))
      ensures Valid()
    {
      SetProcessingNext(false);
      StopPlayer();
    }

    method OnFfmpegExit(ffmpeg: Handle)
      requires Valid()
      modifies this
      ensures Snap() == OnDecoderExit(old(Snap()), ffmpeg)
      ensures Valid()
    {
      if currentFfmpeg == Some(ffmpeg) {
        currentFfmpeg := None;
      }
    }

    /** The connection was destroyed by something other than this queue. */
    method OnConnectionLost()
      requires Valid() && connection.Some?
      modifies this
      ensures Snap() == OnConnectionDestroyed(old(Snap()))
      ensures Valid()
    {
      OnDestroyed();
    }

    /** A `setTimeout(() => this.playNext(), ...)` comes due. */
    method RunScheduledPlayNext()
      requires Valid() && pendingPlayNext > 0
      modifies this
      ensures Snap() == QueueState.RunScheduledPlayNext(old(Snap()))
      ensures Valid()
    {
      pendingPlayNext := pendingPlayNext - 1;
      PlayNext();
    }

    /** The inactivity timer comes due and stops the queue. */
    method OnInactivityTimeout()
      requires Valid() && inactivityTimerArmed
      modifies this
      ensures Snap() == FireInactivityTimeout(old(Snap()))
      ensures Valid()
    {
      Stop();
    }
  }
}
