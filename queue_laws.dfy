/** What the step functions of `QueueState` guarantee: the bookkeeping
    promises of `MusicQueue` (utils/musicQueue.js), proved for all states and
    inputs, and an invariant that holds in every state reachable from a new
    queue by any sequence of operations and callbacks. */
module QueueLaws {
  import opened Outcomes
  import opened Constants
  import opened Tracks
  import opened Text
  import opened DecoderPipeline
  import opened QueueState

  // ---------------------------------------------------------------------
  // addSong
  // ---------------------------------------------------------------------

  /** A full queue refuses the song and stays as it was; otherwise the song
      goes to the tail, the result is its 1-based position, the inactivity
      timer is disarmed and nothing else changes. */
  lemma AddSongContract(s: Snapshot, song: Song)
    ensures var r := AddSong(s, song);
            if |s.songs| >= 200 then r == Step(Failure("Queue is full! Maximum 200 songs allowed."), s)
            else && r.result.Success?
                 && r.state.songs == s.songs + [song]
                 && r.result.value == |r.state.songs| && r.state.songs[r.result.value - 1] == song
                 && !r.state.timerArmed
                 && r.state.(songs := s.songs, timerArmed := s.timerArmed) == s
  {
  }

  /** Adding songs one after the other. */
  function AddAll(s: Snapshot, xs: seq<Song>): Snapshot
    decreases |xs|
  {
    if xs == [] then s else AddAll(AddSong(s, xs[0]).state, xs[1..])
  }

  /** While there is room, adding appends in order. */
  lemma {:induction false} AddAllAppends(s: Snapshot, xs: seq<Song>)
    requires |s.songs| + |xs| <= QueueMaxSize
    ensures AddAll(s, xs).songs == s.songs + xs
    ensures AddAll(s, xs).currentSong == s.currentSong
    ensures AddAll(s, xs).retriedSongs == s.retriedSongs && AddAll(s, xs).isProcessingNext == s.isProcessingNext
    ensures AddAll(s, xs).pendingResolves == s.pendingResolves && AddAll(s, xs).retryCount == s.retryCount
    ensures AddAll(s, xs).pendingPlayNext == s.pendingPlayNext && AddAll(s, xs).isPlaying == s.isPlaying
    decreases |xs|
  {
    if xs != [] {
      var t := AddSong(s, xs[0]).state;
      AddAllAppends(t, xs[1..]);
      assert t.songs + xs[1..] == s.songs + xs;
    }
  }

  // ---------------------------------------------------------------------
  // playNext
  // ---------------------------------------------------------------------

  /** Single flight: while a `playNext` is in progress another one changes
      nothing, so two triggers in a row act as one. */
  lemma PlayNextSingleFlight(s: Snapshot)
    ensures s.isProcessingNext ==> PlayNextBegin(s) == s
    ensures PlayNextBegin(PlayNextBegin(s)) == PlayNextBegin(s)
  {
  }

  /** An empty queue: nothing plays and the inactivity timer is armed. */
  lemma PlayNextOnEmptyQueue(s: Snapshot)
    requires !s.isProcessingNext && s.songs == []
    ensures var t := PlayNextBegin(s);
            && !t.isPlaying && t.currentSong.None? && !t.isProcessingNext && t.timerArmed
            && t.effects == s.effects
  {
  }

  /** FIFO: the head becomes current, the tail stays queued, the timer is
      disarmed and the resolver is asked for the head's URL. */
  lemma PlayNextTakesHead(s: Snapshot)
    requires !s.isProcessingNext && s.songs != []
    ensures var t := PlayNextBegin(s);
            && t.currentSong == Some(s.songs[0]) && t.songs == s.songs[1..]
            && t.isPlaying && t.isProcessingNext && !t.timerArmed
            && t.effects == s.effects + [ResolveRequested(s.songs[0].url)]
            && t.pendingResolves == s.pendingResolves + 1
  {
  }

  /** A resolver answer the queue accepts. */
  predicate GoodAnswer(output: string)
  {
    ResolveDirectUrl(Success(output)).Some?
  }

  /** When the resolver answers with a usable URL and a song is current, the
      decoder is spawned with the argument list for that URL and the song's
      duration, the resource is played, and the song's retry bookkeeping is
      cleared. */
  lemma PlayNextSucceeds(s: Snapshot, output: string)
    requires s.pendingResolves > 0 && s.currentSong.Some? && GoodAnswer(output)
    ensures var t := PlayNextResume(s, output := Success(output));
            var url := ResolveDirectUrl(Success(output)).value;
            && t.decoder == Some(s.nextHandle) && t.nextHandle == s.nextHandle + 1
            && t.effects == s.effects + [DecoderSpawned(s.nextHandle, DecoderArgs(url, s.currentSong.value.duration)),
                                         ResourcePlayed(s.nextHandle)]
            && t.retryCount == 0 && s.currentSong.value.url !in t.retriedSongs
            && t.retriedSongs == s.retriedSongs - {s.currentSong.value.url}
            && !t.isProcessingNext && t.songs == s.songs && t.currentSong == s.currentSong
  {
  }

  /** One successful advance: take the head and start it. */
  function Advance(s: Snapshot, output: string): Snapshot
  {
    var t := PlayNextBegin(s);
    if t.pendingResolves > 0 then PlayNextResume(t, Success(output)) else t
  }

  function AdvanceAll(s: Snapshot, outputs: seq<string>): Snapshot
    decreases |outputs|
  {
    if outputs == [] then s else AdvanceAll(Advance(s, outputs[0]), outputs[1..])
  }

  /** The URLs the resolver was asked for, in order. */
  function Requested(effects: seq<Effect>): seq<string>
  {
    if effects == [] then []
    else (if effects[0].ResolveRequested? then [effects[0].url] else []) + Requested(effects[1..])
  }

  lemma {:induction false} RequestedAppend(a: seq<Effect>, b: seq<Effect>)
    ensures Requested(a + b) == Requested(a) + Requested(b)
    decreases |a|
  {
    if a != [] {
      assert (a + b)[0] == a[0] && (a + b)[1..] == a[1..] + b;
      RequestedAppend(a[1..], b);
    } else {
      assert a + b == b;
    }
  }

  function Urls(songs: seq<Song>): seq<string>
  {
    if songs == [] then [] else [songs[0].url] + Urls(songs[1..])
  }

  lemma {:induction false} UrlsAppend(a: seq<Song>, b: seq<Song>)
    ensures Urls(a + b) == Urls(a) + Urls(b)
    decreases |a|
  {
    if a != [] {
      assert (a + b)[0] == a[0] && (a + b)[1..] == a[1..] + b;
      UrlsAppend(a[1..], b);
    } else {
      assert a + b == b;
    }
  }

  /** `e` extends `e0`: effects are only ever appended. */
  predicate Extends(e0: seq<Effect>, e: seq<Effect>)
  {
    |e0| <= |e| && e[..|e0|] == e0
  }

  lemma RequestedSince(e0: seq<Effect>, e1: seq<Effect>, e2: seq<Effect>)
    requires Extends(e0, e1) && Extends(e1, e2)
    ensures Extends(e0, e2)
    ensures Requested(e2[|e0|..]) == Requested(e1[|e0|..]) + Requested(e2[|e1|..])
  {
    assert e2[|e0|..] == e1[|e0|..] + e2[|e1|..];
    RequestedAppend(e1[|e0|..], e2[|e1|..]);
  }

  /** One successful advance takes the head, asks the resolver for its URL
      and for nothing else, and leaves no `playNext` in progress. */
  lemma AdvanceTakesHead(s: Snapshot, output: string)
    requires !s.isProcessingNext && s.songs != [] && GoodAnswer(output)
    ensures var a := Advance(s, output);
            && a.songs == s.songs[1..] && a.currentSong == Some(s.songs[0]) && !a.isProcessingNext
            && Extends(s.effects, a.effects)
            && Requested(a.effects[|s.effects|..]) == [s.songs[0].url]
  {
    var b := PlayNextBegin(s);
    PlayNextTakesHead(s);
    PlayNextSucceeds(b, output);
    var a := Advance(s, output);
    var url := ResolveDirectUrl(Success(output)).value;
    var spawned := [DecoderSpawned(b.nextHandle, DecoderArgs(url, b.currentSong.value.duration)), ResourcePlayed(b.nextHandle)];
    assert a.effects[|s.effects|..] == [ResolveRequested(s.songs[0].url)] + spawned;
    RequestedAppend([ResolveRequested(s.songs[0].url)], spawned);
    assert Requested(spawned) == Requested(spawned[1..]);
    assert Requested(spawned[1..]) == Requested(spawned[2..]);
  }

  /** Every answer in `outputs` is one the queue accepts. */
  predicate AllGood(outputs: seq<string>)
  {
    forall i :: 0 <= i < |outputs| ==> GoodAnswer(outputs[i])
  }

  lemma AllGoodTail(outputs: seq<string>)
    requires outputs != [] && AllGood(outputs)
    ensures AllGood(outputs[1..])
  {
    forall i | 0 <= i < |outputs[1..]| ensures GoodAnswer(outputs[1..][i]) {
      assert outputs[1..][i] == outputs[i + 1];
    }
  }

  /** `t` is `s` after its first `n` songs were started in order: the
      resolver was asked for their URLs in queue order, the `n`-th song is
      current, the rest are still queued and no `playNext` is in progress. */
  predicate InQueueOrder(s: Snapshot, t: Snapshot, n: nat)
    requires n <= |s.songs|
  {
    && Extends(s.effects, t.effects)
    && t.songs == s.songs[n..]
    && Requested(t.effects[|s.effects|..]) == Urls(s.songs[..n])
    && (n > 0 ==> t.currentSong == Some(s.songs[n - 1]))
    && !t.isProcessingNext
  }

  /** Songs are played in the order they were queued: after `n` successful
      advances the resolver was asked for the first `n` URLs in queue order,
      the `n`-th song is current and the rest are still queued. */
  lemma {:induction false} PlaysInQueueOrder(s: Snapshot, outputs: seq<string>)
    requires !s.isProcessingNext && |outputs| <= |s.songs| && AllGood(outputs)
    ensures InQueueOrder(s, AdvanceAll(s, outputs), |outputs|)
    decreases |outputs|
  {
    if outputs == [] {
      assert s.effects[|s.effects|..] == [] && s.songs[..0] == [] && s.songs[0..] == s.songs;
    } else {
      var a := Advance(s, outputs[0]);
      AdvanceTakesHead(s, outputs[0]);
      AllGoodTail(outputs);
      PlaysInQueueOrder(a, outputs[1..]);
      assert AdvanceAll(s, outputs) == AdvanceAll(a, outputs[1..]);
      InQueueOrderStep(s, a, AdvanceAll(a, outputs[1..]), |outputs|);
    }
  }

  /** The sequence reasoning of one induction step above. */
  lemma InQueueOrderStep(s: Snapshot, a: Snapshot, t: Snapshot, n: nat)
    requires 0 < n <= |s.songs|
    requires a.songs == s.songs[1..] && a.currentSong == Some(s.songs[0])
    requires Extends(s.effects, a.effects) && Requested(a.effects[|s.effects|..]) == [s.songs[0].url]
    requires InQueueOrder(a, t, n - 1) && (n == 1 ==> t.currentSong == a.currentSong)
    ensures InQueueOrder(s, t, n)
  {
    RequestedSince(s.effects, a.effects, t.effects);
    assert s.songs[..n] == [s.songs[0]] + a.songs[..n - 1];
    UrlsAppend([s.songs[0]], a.songs[..n - 1]);
    assert Urls([s.songs[0]]) == [s.songs[0].url];
    assert t.songs == s.songs[n..];
    if n > 1 {
      assert a.songs[n - 2] == s.songs[n - 1];
    }
  }

  // ---------------------------------------------------------------------
  // The retry policy
  // ---------------------------------------------------------------------

  /** A resolver answer the queue rejects (or a failed resolver run). */
  predicate BadAnswer(output: Result<string, string>)
  {
    ResolveDirectUrl(output).None?
  }

  /** First failure of a song that has not been retried: it goes back to the
      head of the queue, is marked as retried, and one `playNext` is
      scheduled. */
  lemma FirstFailureRequeues(s: Snapshot, output: Result<string, string>)
    requires s.pendingResolves > 0 && s.currentSong.Some? && BadAnswer(output)
    requires s.retryCount < MaxRetries && s.currentSong.value.url !in s.retriedSongs
    ensures var t := PlayNextResume(s, output);
            && t.songs == [s.currentSong.value] + s.songs && t.currentSong.None?
            && t.retryCount == s.retryCount + 1
            && t.retriedSongs == s.retriedSongs + {s.currentSong.value.url}
            && t.pendingPlayNext == s.pendingPlayNext + 1
            && !t.isProcessingNext && t.effects == s.effects
  {
  }

  /** A failure of a song already marked as retried, or with the counter at
      its maximum, drops it: it is not requeued, the counter is reset, its
      mark is removed, and the player is told to stop. `currentSong` and
      `isPlaying` stay set: only a later Idle notification moves on. */
  lemma LaterFailureDrops(s: Snapshot, output: Result<string, string>)
    requires s.pendingResolves > 0 && s.currentSong.Some? && BadAnswer(output)
    requires s.retryCount >= MaxRetries || s.currentSong.value.url in s.retriedSongs
    ensures var t := PlayNextResume(s, output);
            && t.songs == s.songs && t.retryCount == 0
            && t.retriedSongs == s.retriedSongs - {s.currentSong.value.url}
            && t.pendingPlayNext == s.pendingPlayNext
            && t.effects == s.effects + [PlayerStopped]
            && !t.isProcessingNext
  {
  }

  /** The drop leaves the dropped song current and the queue playing, with
      no `playNext` scheduled: until the player reports Idle, a `play` on the
      same channel returns false and changes nothing. When the player was
      already idle its stop produces no Idle notification, and the queue
      stays so. */
  lemma DroppedSongStallsWithoutIdle(s: Snapshot, output: Result<string, string>, channel: ChannelId, o: ConnectOutcome)
    requires !s.isProcessingNext && s.songs != [] && s.connection == Some(channel)
    requires s.retryCount >= MaxRetries || s.songs[0].url in s.retriedSongs
    requires BadAnswer(output)
    ensures var t := PlayNextResume(PlayNextBegin(s), output);
            && t.isPlaying && t.currentSong == Some(s.songs[0]) && !t.isProcessingNext
            && t.songs == s.songs[1..] && t.pendingPlayNext == s.pendingPlayNext
            && Play(t, channel, o) == Step(Success(false), t)
  {
    PlayNextTakesHead(s);
    LaterFailureDrops(PlayNextBegin(s), output);
  }

  /** A song whose URL always fails to resolve is tried twice, so retried
      exactly once, and then dropped; afterwards the retry counter is zero
      and the retried-set is what it was before. */
  lemma AlwaysFailingSongRetriedOnce(s: Snapshot, first: Result<string, string>, second: Result<string, string>)
    requires !s.isProcessingNext && s.songs != []
    requires s.retryCount < MaxRetries && s.songs[0].url !in s.retriedSongs
    requires BadAnswer(first) && BadAnswer(second)
    ensures var s1 := PlayNextResume(PlayNextBegin(s), first);
            && s1.pendingPlayNext > 0
            && var s2 := PlayNextResume(RunScheduledPlayNext(s1), second);
            && s2.songs == s.songs[1..]
            && s2.retryCount == 0 && s2.retriedSongs == s.retriedSongs
            && s2.pendingPlayNext == s.pendingPlayNext
            && Requested(s2.effects[|s.effects|..]) == [s.songs[0].url, s.songs[0].url]
            && s2.effects[|s2.effects| - 1] == PlayerStopped
  {
    var song := s.songs[0];
    var s1 := FirstAttemptFails(s, first);
    var b2 := RunScheduledPlayNext(s1);
    PlayNextTakesHead(s1.(pendingPlayNext := s1.pendingPlayNext - 1));
    LaterFailureDrops(b2, second);
    var s2 := PlayNextResume(b2, second);
    var asked := [ResolveRequested(song.url), ResolveRequested(song.url), PlayerStopped];
    assert s2.effects[|s.effects|..] == asked;
    assert Requested(asked[2..]) == [] by { assert asked[2..][1..] == []; }
    assert Requested(asked[1..]) == [song.url] by { assert asked[1..][1..] == asked[2..]; }
  }

  /** The first round above: the song is requeued as it was. */
  lemma FirstAttemptFails(s: Snapshot, first: Result<string, string>) returns (s1: Snapshot)
    requires !s.isProcessingNext && s.songs != []
    requires s.retryCount < MaxRetries && s.songs[0].url !in s.retriedSongs
    requires BadAnswer(first)
    ensures s1 == PlayNextResume(PlayNextBegin(s), first)
    ensures s1.songs == s.songs && s1.currentSong.None? && !s1.isProcessingNext
    ensures s1.pendingPlayNext == s.pendingPlayNext + 1 && s1.retryCount == s.retryCount + 1
    ensures s1.retriedSongs == s.retriedSongs + {s.songs[0].url}
    ensures s1.effects == s.effects + [ResolveRequested(s.songs[0].url)]
  {
    var b := PlayNextBegin(s);
    PlayNextTakesHead(s);
    FirstFailureRequeues(b, first);
    s1 := PlayNextResume(b, first);
    assert s1.songs == [s.songs[0]] + s.songs[1..];
  }

  /** A song whose URL is still marked as retried is dropped at its first
      failure. */
  lemma MarkedSongDroppedAtOnce(s: Snapshot, song: Song, output: Result<string, string>)
    requires !s.isProcessingNext && s.songs == [] && song.url in s.retriedSongs && BadAnswer(output)
    ensures var s2 := AddSong(s, song).state;
            var s3 := PlayNextResume(PlayNextBegin(s2), output);
            && s3.songs == [] && s3.pendingPlayNext == s.pendingPlayNext
            && s3.effects[|s3.effects| - 1] == PlayerStopped
  {
    var s2 := AddSong(s, song).state;
    assert s2.songs == [song] && !s2.isProcessingNext && s2.retriedSongs == s.retriedSongs;
    var b := PlayNextBegin(s2);
    PlayNextTakesHead(s2);
    LaterFailureDrops(b, output);
  }

  /** Consequence: a song stopped while waiting for its retry keeps its
      mark, and when it is queued again and fails once it is dropped with no
      retry. */
  lemma StoppedRetryIsNotRetriedAgain(s: Snapshot, first: Result<string, string>, second: Result<string, string>)
    requires !s.isProcessingNext && s.songs != []
    requires s.retryCount < MaxRetries && s.songs[0].url !in s.retriedSongs
    requires BadAnswer(first) && BadAnswer(second)
    ensures var song := s.songs[0];
            var s1 := Stop(PlayNextResume(PlayNextBegin(s), first));
            var s3 := PlayNextResume(PlayNextBegin(AddSong(s1, song).state), second);
            && song.url in s1.retriedSongs
            && s3.songs == [] && s3.pendingPlayNext == s1.pendingPlayNext
            && s3.effects[|s3.effects| - 1] == PlayerStopped
  {
    var b := PlayNextBegin(s);
    PlayNextTakesHead(s);
    FirstFailureRequeues(b, first);
    var r := PlayNextResume(b, first);
    StopResets(r);
    MarkedSongDroppedAtOnce(Stop(r), s.songs[0], second);
  }

  // ---------------------------------------------------------------------
  // stop, cleanup and the destroyed connection
  // ---------------------------------------------------------------------

  /** `stop()` from any state: nothing queued or current, every flag down,
      the timer, the decoder and the connection gone. */
  lemma StopResets(s: Snapshot)
    ensures var t := Stop(s);
            && t.songs == [] && t.currentSong.None?
            && !t.isPlaying && !t.waitingForNext && !t.isProcessingNext
            && !t.timerArmed && t.decoder.None? && t.connection.None?
            && t.retryCount == s.retryCount && t.retriedSongs == s.retriedSongs
  {
  }

  /** ... and a live decoder is killed, the player is told to stop, and a
      live connection is destroyed, in that order. */
  lemma StopCommands(s: Snapshot)
    ensures Stop(s).effects == s.effects
               + (if s.decoder.Some? then [DecoderKilled(s.decoder.value)] else [])
               + [PlayerStopped]
               + (if s.connection.Some? then [ConnectionDestroyed(s.connection.value), PlayerStopped] else [])
  {
  }

  /** `stop()` twice is `stop()` once, but for one more stop request to the
      player. */
  lemma StopIdempotent(s: Snapshot)
    ensures Stop(Stop(s)) == Stop(s).(effects := Stop(s).effects + [PlayerStopped])
  {
  }

  /** `cleanup()`: no listeners, no decoder, no connection, no timer; the
      queue's songs are kept. */
  lemma CleanupReleases(s: Snapshot)
    ensures var t := Cleanup(s);
            && !t.playerListening && t.decoder.None? && t.connection.None? && !t.timerArmed
            && t.songs == s.songs
  {
  }

  /** `deleteQueue` runs `stop()` then `cleanup()`: the queue it forgets
      holds no song and no timer, no decoder or connection, and no longer
      listens to its player. */
  lemma DeletedQueueReleased(s: Snapshot)
    ensures var t := Cleanup(Stop(s));
            && t.songs == [] && t.currentSong.None? && !t.isPlaying
            && t.decoder.None? && t.connection.None? && !t.timerArmed && !t.playerListening
  {
    StopResets(s);
    CleanupReleases(Stop(s));
  }

  /** After `cleanup()` the player's notifications no longer reach the
      queue. */
  lemma CleanedQueueIgnoresPlayer(s: Snapshot)
    ensures var t := Cleanup(s);
            && OnPlayerIdle(t) == t.(playerPaused := false)
            && OnPlayerPlaying(t) == t.(playerPaused := false)
            && OnPlayerError(t) == t
  {
  }

  // ---------------------------------------------------------------------
  // play
  // ---------------------------------------------------------------------

  /** Already connected to the requested channel: the connection outcome
      plays no part; playback starts (and `true` is returned) exactly when
      nothing plays, songs wait and no `playNext` is in progress; otherwise
      nothing changes. */
  lemma PlaySameChannel(s: Snapshot, channel: ChannelId, o1: ConnectOutcome, o2: ConnectOutcome)
    requires s.connection == Some(channel)
    ensures Play(s, channel, o1) == Play(s, channel, o2)
    ensures Play(s, channel, o1).result == Success(!s.isPlaying && |s.songs| > 0 && !s.isProcessingNext)
    ensures !Play(s, channel, o1).result.value ==> Play(s, channel, o1).state == s
    ensures Play(s, channel, o1).result.value ==>
              Play(s, channel, o1).state.currentSong == Some(s.songs[0])
              && Play(s, channel, o1).state.songs == s.songs[1..]
  {
  }

  /** Leaving one channel for another keeps the queue exactly, kills the
      decoder, destroys the connection, installs a fresh listening player and
      puts every flag and the retry bookkeeping back to their initial
      values. */
  lemma SwitchChannelResets(s: Snapshot)
    requires s.connection.Some?
    ensures var t := SwitchChannel(s);
            && t.songs == s.songs && t.currentSong.None?
            && !t.isPlaying && !t.waitingForNext && !t.isProcessingNext && !t.isConnecting
            && t.retryCount == 0 && t.retriedSongs == {}
            && t.decoder.None? && t.connection.None?
            && t.playerListening && !t.playerPaused
            && (s.decoder.Some? ==> DecoderKilled(s.decoder.value) in t.effects)
            && ConnectionDestroyed(s.connection.value) in t.effects
  {
    var t := SwitchChannel(s);
    var k := KillDecoder(s);
    assert k.effects == t.effects[..|k.effects|];
    if s.decoder.Some? {
      assert t.effects[|s.effects|] == DecoderKilled(s.decoder.value);
    }
    assert t.effects[|k.effects|] == ConnectionDestroyed(s.connection.value);
  }

  /** Moving to another channel that connects: the whole saved queue plays
      from its head in the new channel, with fresh retry bookkeeping. */
  lemma PlayInOtherChannel(s: Snapshot, channel: ChannelId)
    requires s.connection.Some? && s.connection != Some(channel) && s.songs != []
    ensures var r := Play(s, channel, Ready);
            && r.result == Success(true)
            && r.state.connection == Some(channel)
            && r.state.currentSong == Some(s.songs[0]) && r.state.songs == s.songs[1..]
            && r.state.retryCount == 0 && r.state.retriedSongs == {}
            && r.state.isProcessingNext
  {
    SwitchChannelResets(s);
  }

  /** A connection that times out or cannot be joined: the error is passed
      on, no connection remains, the queue is kept. */
  lemma PlayConnectFails(s: Snapshot, channel: ChannelId, outcome: ConnectOutcome)
    requires s.connection.None? && !s.isConnecting && outcome != Ready
    ensures var r := Play(s, channel, outcome);
            && r.result == Failure(if outcome == TimedOut then ConnectionTimeout else ConnectionFailed)
            && r.state.connection.None? && !r.state.isConnecting
            && r.state.songs == s.songs
  {
  }

  // ---------------------------------------------------------------------
  // pause, resume, skip
  // ---------------------------------------------------------------------

  /** Pausing then resuming a playing queue returns to where it was, but
      for the two player commands. */
  lemma PauseResume(s: Snapshot)
    requires s.isPlaying && !s.playerPaused
    ensures Pause(s).result && Resume(Pause(s).state).result
    ensures Resume(Pause(s).state).state == s.(effects := s.effects + [PlayerPaused, PlayerUnpaused])
  {
  }

  /** Skipping only asks the player to stop; the Idle notification then
      schedules the next `playNext`. */
  lemma SkipThenIdleSchedulesNext(s: Snapshot)
    requires s.isPlaying && s.playerListening && !s.waitingForNext
    ensures Skip(s).result
    ensures var t := OnPlayerIdle(Skip(s).state);
            && t.pendingPlayNext == s.pendingPlayNext + 1 && t.waitingForNext
            && t.songs == s.songs && t.currentSong == s.currentSong
  {
  }

  /** Nothing playing: pause and skip refuse and change nothing. */
  lemma IdleQueueRefuses(s: Snapshot)
    requires !s.isPlaying
    ensures Pause(s) == Step(false, s) && Skip(s) == Step(false, s)
  {
  }

  // ---------------------------------------------------------------------
  // Reachable states
  // ---------------------------------------------------------------------

  /** Everything that can happen to a queue. */
  datatype Op =
    | AddSongOp(song: Song)
    | PlayOp(channel: ChannelId, outcome: ConnectOutcome)
    | ResolverAnswers(output: Result<string, string>)
    | ScheduledPlayNext
    | InactivityTimeout
    | PauseOp
    | ResumeOp
    | SkipOp
    | StopOp
    | CleanupOp
    | PlayerIdle
    | PlayerPlaying
    | PlayerError
    | StreamError(prematureClose: bool)
    | DecoderError
    | DecoderExit(handle: Handle)
    | ConnectionLost

  /** Whether the event can occur in state `s`. */
  predicate Enabled(s: Snapshot, op: Op)
  {
    match op
    case ResolverAnswers(_) => s.pendingResolves > 0
    case ScheduledPlayNext => s.pendingPlayNext > 0
    case InactivityTimeout => s.timerArmed
    case ConnectionLost => s.connection.Some?
    case _ => true
  }

  function Apply(s: Snapshot, op: Op): Snapshot
    requires Enabled(s, op)
  {
    match op
    case AddSongOp(song) => AddSong(s, song).state
    case PlayOp(channel, outcome) => Play(s, channel, outcome).state
    case ResolverAnswers(output) => PlayNextResume(s, output)
    case ScheduledPlayNext => RunScheduledPlayNext(s)
    case InactivityTimeout => FireInactivityTimeout(s)
    case PauseOp => Pause(s).state
    case ResumeOp => Resume(s).state
    case SkipOp => Skip(s).state
    case StopOp => Stop(s)
    case CleanupOp => Cleanup(s)
    case PlayerIdle => OnPlayerIdle(s)
    case PlayerPlaying => OnPlayerPlaying(s)
    case PlayerError => OnPlayerError(s)
    case StreamError(premature) => OnStreamError(s, premature)
    case DecoderError => OnDecoderError(s)
    case DecoderExit(h) => OnDecoderExit(s, h)
    case ConnectionLost => OnConnectionDestroyed(s)
  }

  /** The events in order, those that cannot occur being skipped. */
  function Run(s: Snapshot, ops: seq<Op>): Snapshot
    decreases |ops|
  {
    if ops == [] then s
    else Run(if Enabled(s, ops[0]) then Apply(s, ops[0]) else s, ops[1..])
  }

  function Occupied(s: Snapshot): nat
  {
    |s.songs| + (if s.currentSong.Some? then 1 else 0)
  }

  /** What holds between operations:
      - at most one song more than `addSong` admits is held, queued or
        current (a retry puts the current song back in front of a queue
        that filled up meanwhile);
      - the retry counter is bounded and never exceeds the number of marked
        URLs;
      - no connection attempt is in flight;
      - a `playNext` in progress has a current song and a resolver call
        outstanding;
      - the decoder slot holds a handle that was spawned. */
  predicate Inv(s: Snapshot)
  {
    && Occupied(s) <= QueueMaxSize + 1
    && s.retryCount <= MaxRetries && s.retryCount <= |s.retriedSongs|
    && !s.isConnecting
    && (s.isProcessingNext ==> s.isPlaying && s.currentSong.Some? && s.pendingResolves > 0)
    && (s.decoder.Some? ==> s.decoder.value < s.nextHandle)
  }

  lemma InitialInv()
    ensures Inv(Initial())
  {
  }

  lemma PlayNextBeginInv(s: Snapshot)
    requires Inv(s)
    ensures Inv(PlayNextBegin(s))
  {
  }

  /** The invariant without its clause about a `playNext` in progress,
      which the resolver's answer suspends. */
  predicate Settled(s: Snapshot)
  {
    && Occupied(s) <= QueueMaxSize + 1
    && s.retryCount <= MaxRetries && s.retryCount <= |s.retriedSongs|
    && !s.isConnecting
    && (s.decoder.Some? ==> s.decoder.value < s.nextHandle)
  }

  lemma PlayFailedInv(s: Snapshot)
    requires Settled(s)
    ensures Settled(PlayFailed(s)) && !PlayFailed(s).isProcessingNext
  {
    if s.currentSong.Some? && s.retryCount < MaxRetries && s.currentSong.value.url !in s.retriedSongs {
      RetryInv(s, s.currentSong.value);
    } else {
      var t := PlayFailed(s);
      assert t.retryCount == 0 && t.songs == s.songs && t.currentSong == s.currentSong;
    }
  }

  /** The requeue branch: the song moves from current back to the head, and
      the counter grows with the set of marked URLs. */
  lemma RetryInv(s: Snapshot, song: Song)
    requires Settled(s) && s.currentSong == Some(song)
    requires s.retryCount < MaxRetries && song.url !in s.retriedSongs
    ensures Settled(PlayFailed(s)) && !PlayFailed(s).isProcessingNext
  {
    var t := PlayFailed(s);
    assert t == s.(retryCount := s.retryCount + 1, retriedSongs := s.retriedSongs + {song.url},
                   isProcessingNext := false, songs := [song] + s.songs, currentSong := None,
                   pendingPlayNext := s.pendingPlayNext + 1);
    assert |s.retriedSongs + {song.url}| == |s.retriedSongs| + 1;
    assert Occupied(t) == Occupied(s);
  }

  lemma StartDecoderInv(s: Snapshot, directUrl: string)
    requires Settled(s) && s.currentSong.Some?
    ensures Settled(StartDecoder(s, directUrl)) && !StartDecoder(s, directUrl).isProcessingNext
  {
  }

  /** The resolver's answer ends the `playNext` in progress. */
  lemma PlayNextResumeInv(s: Snapshot, output: Result<string, string>)
    requires Inv(s) && s.pendingResolves > 0
    ensures Inv(PlayNextResume(s, output))
  {
    var directUrl := ResolveDirectUrl(output);
    var t := if directUrl.None? || s.currentSong.None? then PlayFailed(s) else StartDecoder(s, directUrl.value);
    if directUrl.None? || s.currentSong.None? {
      PlayFailedInv(s);
    } else {
      StartDecoderInv(s, directUrl.value);
    }
    assert Settled(t) && !t.isProcessingNext;
    assert PlayNextResume(s, output) == t.(pendingResolves := s.pendingResolves - 1);
  }

  lemma AddSongInv(s: Snapshot, song: Song)
    requires Inv(s)
    ensures Inv(AddSong(s, song).state)
  {
  }

  lemma StopInv(s: Snapshot)
    requires Inv(s)
    ensures Inv(Stop(s))
  {
  }

  lemma DestroyConnectionInv(s: Snapshot)
    requires Inv(s) && s.connection.Some?
    ensures Inv(DestroyConnection(s))
  {
  }

  lemma CleanupInv(s: Snapshot)
    requires Inv(s)
    ensures Inv(Cleanup(s))
  {
    var t := KillDecoder(s.(playerListening := false));
    assert Inv(t);
    if t.connection.Some? {
      DestroyConnectionInv(t);
    }
  }

  lemma PlayerCommandsInv(s: Snapshot)
    requires Inv(s)
    ensures Inv(Pause(s).state) && Inv(Resume(s).state) && Inv(Skip(s).state)
  {
  }

  lemma PlayerCallbacksInv(s: Snapshot)
    requires Inv(s)
    ensures Inv(OnPlayerIdle(s)) && Inv(OnPlayerPlaying(s)) && Inv(OnPlayerError(s))
  {
  }

  lemma DecoderCallbacksInv(s: Snapshot, premature: bool, h: Handle)
    requires Inv(s)
    ensures Inv(OnStreamError(s, premature)) && Inv(OnDecoderError(s)) && Inv(OnDecoderExit(s, h))
  {
  }

  lemma ConnectionLostInv(s: Snapshot)
    requires Inv(s) && s.connection.Some?
    ensures Inv(OnConnectionDestroyed(s))
  {
  }

  lemma SwitchChannelInv(s: Snapshot)
    requires Inv(s) && s.connection.Some?
    ensures Inv(SwitchChannel(s))
  {
  }

  lemma ConnectInv(s: Snapshot, channel: ChannelId, outcome: ConnectOutcome)
    requires Inv(s) && s.connection.None?
    ensures Inv(Connect(s, channel, outcome).state)
  {
  }

  lemma PlayInv(s: Snapshot, channel: ChannelId, outcome: ConnectOutcome)
    requires Inv(s)
    ensures Inv(Play(s, channel, outcome).state)
  {
    if s.connection == Some(channel) {
      PlayNextBeginInv(s);
    } else {
      var t := if s.connection.Some? then SwitchChannel(s) else s;
      if s.connection.Some? {
        SwitchChannelInv(s);
      }
      var c := if t.connection.None? && !t.isConnecting then Connect(t, channel, outcome) else Step(Success(()), t);
      if t.connection.None? && !t.isConnecting {
        ConnectInv(t, channel, outcome);
      }
      PlayNextBeginInv(c.state);
    }
  }

  /** The operations the bot's commands call. */
  predicate IsCommand(op: Op)
  {
    op.AddSongOp? || op.PlayOp? || op.PauseOp? || op.ResumeOp? || op.SkipOp? || op.StopOp? || op.CleanupOp?
  }

  /** Every operation and callback keeps the invariant. */
  lemma ApplyInv(s: Snapshot, op: Op)
    requires Inv(s) && Enabled(s, op)
    ensures Inv(Apply(s, op))
  {
    if IsCommand(op) {
      CommandInv(s, op);
    } else if IsContinuation(op) {
      ContinuationInv(s, op);
    } else {
      CallbackInv(s, op);
    }
  }

  lemma CommandInv(s: Snapshot, op: Op)
    requires Inv(s) && IsCommand(op)
    ensures Inv(Apply(s, op))
  {
    match op
    case AddSongOp(song) => AddSongInv(s, song);
    case PlayOp(channel, outcome) => PlayInv(s, channel, outcome);
    case PauseOp => PlayerCommandsInv(s);
    case ResumeOp => PlayerCommandsInv(s);
    case SkipOp => PlayerCommandsInv(s);
    case StopOp => StopInv(s);
    case CleanupOp => CleanupInv(s);
  }

  /** The resolver's answer and the timers. */
  predicate IsContinuation(op: Op)
  {
    op.ResolverAnswers? || op.ScheduledPlayNext? || op.InactivityTimeout?
  }

  lemma ContinuationInv(s: Snapshot, op: Op)
    requires Inv(s) && Enabled(s, op) && IsContinuation(op)
    ensures Inv(Apply(s, op))
  {
    match op
    case ResolverAnswers(output) => ResolverAnswersInv(s, output);
    case ScheduledPlayNext => ScheduledPlayNextInv(s);
    case InactivityTimeout => StopInv(s);
  }

  lemma ResolverAnswersInv(s: Snapshot, output: Result<string, string>)
    requires Inv(s) && s.pendingResolves > 0
    ensures Inv(Apply(s, ResolverAnswers(output)))
  {
    PlayNextResumeInv(s, output);
  }

  lemma ScheduledPlayNextInv(s: Snapshot)
    requires Inv(s) && s.pendingPlayNext > 0
    ensures Inv(Apply(s, ScheduledPlayNext))
  {
    PlayNextBeginInv(s.(pendingPlayNext := s.pendingPlayNext - 1));
  }

  lemma CallbackInv(s: Snapshot, op: Op)
    requires Inv(s) && Enabled(s, op) && !IsCommand(op) && !IsContinuation(op)
    ensures Inv(Apply(s, op))
  {
    match op
    case PlayerIdle => PlayerCallbacksInv(s);
    case PlayerPlaying => PlayerCallbacksInv(s);
    case PlayerError => PlayerCallbacksInv(s);
    case StreamError(premature) => DecoderCallbacksInv(s, premature, 0);
    case DecoderError => DecoderCallbacksInv(s, false, 0);
    case DecoderExit(h) => DecoderCallbacksInv(s, false, h);
    case ConnectionLost => ConnectionLostInv(s);
  }

  /** The invariant holds in every state reachable from a new queue. */
  lemma {:induction false} RunInv(s: Snapshot, ops: seq<Op>)
    requires Inv(s)
    ensures Inv(Run(s, ops))
    decreases |ops|
  {
    if ops != [] {
      var t := if Enabled(s, ops[0]) then Apply(s, ops[0]) else s;
      if Enabled(s, ops[0]) {
        ApplyInv(s, ops[0]);
      }
      RunInv(t, ops[1..]);
    }
  }

  /** Hence in any reachable state at most 201 songs are queued and the retry
      counter is at most `MAX_RETRIES`. */
  lemma ReachableBounds(ops: seq<Op>)
    ensures |Run(Initial(), ops).songs| <= QueueMaxSize + 1
    ensures Run(Initial(), ops).retryCount <= MaxRetries
  {
    InitialInv();
    RunInv(Initial(), ops);
  }

  /** And the 201 is reached: one song starts, 200 more are added while the
      resolver works, the resolver fails, and the first song is put back in
      front of the full queue. */
  lemma QueueCanHoldOneMoreThanMax(first: Song, more: seq<Song>, channel: ChannelId, output: Result<string, string>)
    requires |more| == QueueMaxSize && BadAnswer(output)
    ensures var s1 := AddSong(Initial(), first).state;
            var s2 := Play(s1, channel, Ready).state;
            var s3 := AddAll(s2, more);
            && s3.pendingResolves > 0
            && |PlayNextResume(s3, output).songs| == QueueMaxSize + 1
  {
    var s1 := AddSong(Initial(), first).state;
    var s2 := Play(s1, channel, Ready).state;
    assert s2.songs == [] && s2.currentSong == Some(first) && s2.pendingResolves == 1;
    AddAllAppends(s2, more);
  }
}
