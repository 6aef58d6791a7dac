/** utils/validators.js: the classifiers that turn a user's query into a
    YouTube or SoundCloud reference, and the small checks the command handlers
    run before touching a queue. Every regular expression of the source is a
    hand-written matcher here, paired with a declarative predicate that states
    what the expression accepts. */
module Validators {
  import opened Outcomes
  import opened Text
  import opened Constants
  import opened Tracks

  // ---------------------------------------------------------------------
  // Character classes
  // ---------------------------------------------------------------------

  /** `[a-zA-Z0-9_-]` */
  predicate IsIdChar(c: char)
  {
    ('a' <= c <= 'z') || ('A' <= c <= 'Z') || ('0' <= c <= '9') || c == '_' || c == '-'
  }

  /** `[a-zA-Z0-9]` */
  predicate IsAlnum(c: char)
  {
    ('a' <= c <= 'z') || ('A' <= c <= 'Z') || ('0' <= c <= '9')
  }

  predicate AllIdChars(s: string)
  {
    forall k :: 0 <= k < |s| ==> IsIdChar(s[k])
  }

  /** `[a-zA-Z0-9_-]{11}` */
  predicate IsVideoId(id: string)
  {
    |id| == 11 && AllIdChars(id)
  }

  /** End of the longest run of `[a-zA-Z0-9_-]` starting at `i`: what a greedy
      `+` or `*` over that class consumes. */
  function IdRunEnd(q: string, i: nat): (e: nat)
    requires i <= |q|
    ensures i <= e <= |q|
    ensures forall k :: i <= k < e ==> IsIdChar(q[k])
    ensures e == |q| || !IsIdChar(q[e])
    decreases |q| - i
  {
    if i < |q| && IsIdChar(q[i]) then IdRunEnd(q, i + 1) else i
  }

  /** End of the longest run of `[a-zA-Z0-9]` starting at `i`. */
  function AlnumRunEnd(q: string, i: nat): (e: nat)
    requires i <= |q|
    ensures i <= e <= |q|
    ensures forall k :: i <= k < e ==> IsAlnum(q[k])
    ensures e == |q| || !IsAlnum(q[e])
    decreases |q| - i
  {
    if i < |q| && IsAlnum(q[i]) then AlnumRunEnd(q, i + 1) else i
  }

  /** A run ending at a character outside the class (or at the end) is the
      greedy run: greedy and backtracking matching agree on it. */
  lemma IdRunEndIsUnique(q: string, i: nat, e: nat)
    requires i <= e <= |q|
    requires forall k :: i <= k < e ==> IsIdChar(q[k])
    requires e == |q| || !IsIdChar(q[e])
    ensures IdRunEnd(q, i) == e
  {
  }

  lemma AlnumRunEndIsUnique(q: string, i: nat, e: nat)
    requires i <= e <= |q|
    requires forall k :: i <= k < e ==> IsAlnum(q[k])
    requires e == |q| || !IsAlnum(q[e])
    ensures AlnumRunEnd(q, i) == e
  {
  }

  // ---------------------------------------------------------------------
  // YouTube: the playlist parameter  /[?&]list=([a-zA-Z0-9_-]+)/
  // ---------------------------------------------------------------------

  /** What the playlist expression accepts at index `i` with capture `pid`:
      `?list=` or `&list=`, then `pid`, a non-empty id run that the greedy `+`
      cannot extend. */
  ghost predicate ListParamPattern(q: string, i: nat, pid: string)
  {
    && (StartsAt(q, i, "?list=" + pid) || StartsAt(q, i, "&list=" + pid))
    && |pid| > 0 && AllIdChars(pid)
    && (i + 6 + |pid| == |q| || !IsIdChar(q[i + 6 + |pid|]))
  }

  /** Where the playlist expression can start: `?list=` or `&list=` and at
      least one id character. */
  predicate ListParamStartsAt(q: string, i: nat)
  {
    i + 6 < |q| && (StartsAt(q, i, "?list=") || StartsAt(q, i, "&list=")) && IsIdChar(q[i + 6])
  }

  /** The playlist expression tried at index `i`. */
  function ListParamAt(q: string, i: nat): (r: Option<string>)
    ensures r.Some? <==> ListParamStartsAt(q, i)
    ensures r.Some? ==> |r.value| > 0 && AllIdChars(r.value)
  {
    if ListParamStartsAt(q, i) then Some(q[i + 6..IdRunEnd(q, i + 6)]) else None
  }

  /** The matcher at one index finds exactly what the expression accepts
      there, and the capture is unique. */
  lemma ListParamAtMeaning(q: string, i: nat, pid: string)
    ensures ListParamAt(q, i) == Some(pid) <==> ListParamPattern(q, i, pid)
  {
    StartsAtConcat(q, i, "?list=", pid);
    StartsAtConcat(q, i, "&list=", pid);
    if ListParamPattern(q, i, pid) {
      assert q[i + 6] == pid[0];
      IdRunEndIsUnique(q, i + 6, i + 6 + |pid|);
    }
  }

  /** `String.prototype.match` with a non-global expression: the match that
      starts leftmost, searching from index `i`. */
  function FindListParam(q: string, i: nat): (r: Option<string>)
    requires i <= |q|
    ensures r.Some? ==> exists k :: i <= k <= |q| && ListParamAt(q, k) == r
                                    && forall m :: i <= m < k ==> !ListParamStartsAt(q, m)
    ensures r.None? ==> forall k :: i <= k <= |q| ==> !ListParamStartsAt(q, k)
    decreases |q| - i
  {
    if ListParamStartsAt(q, i) then ListParamAt(q, i)
    else if i == |q| then None
    else FindListParam(q, i + 1)
  }

  // ---------------------------------------------------------------------
  // YouTube: the video expression
  // /(?:https?:\/\/)?(?:www\.)?(?:youtube\.com|youtu\.be)\/(?:watch\?v=|embed\/|v\/|shorts\/)?([a-zA-Z0-9_-]{11})/
  // ---------------------------------------------------------------------

  /** The expression as a list of groups of literal alternatives followed
      by the 11-character capture; each group is listed in the order a
      backtracking matcher tries it, and "" stands for skipping an optional
      group: `(?:https?:\/\/)?` (the greedy `s?` tries `https://` first),
      `(?:www\.)?`, `(?:youtube\.com|youtu\.be)\/` and
      `(?:watch\?v=|embed\/|v\/|shorts\/)?`. */
  const VideoGroups: seq<seq<string>> := [
    ["https://", "http://", ""],
    ["www.", ""],
    ["youtube.com/", "youtu.be/"],
    ["watch?v=", "embed/", "v/", "shorts/", ""]
  ]

  /** The capture group: 11 id characters at `j`. */
  function VideoIdAt(q: string, j: nat): (r: Option<string>)
    ensures r.Some? ==> IsVideoId(r.value) && StartsAt(q, j, r.value)
  {
    if j + 11 <= |q| && IsVideoId(q[j..j + 11]) then Some(q[j..j + 11]) else None
  }

  /** What an expression made of `groups` and then the capture accepts from
      index `j`, with capture `id`: one alternative of each group in turn. */
  ghost predicate GroupsPattern(q: string, j: nat, groups: seq<seq<string>>, id: string)
    decreases |groups|
  {
    if groups == [] then StartsAt(q, j, id) && IsVideoId(id)
    else exists a :: a in groups[0] && StartsAt(q, j, a) && GroupsPattern(q, j + |a|, groups[1..], id)
  }

  /** The backtracking matcher for `groups` followed by the capture. */
  function MatchGroups(q: string, j: nat, groups: seq<seq<string>>): (r: Option<string>)
    ensures r.Some? ==> IsVideoId(r.value)
    decreases |groups|, if groups == [] then 0 else |groups[0]| + 1
  {
    if groups == [] then VideoIdAt(q, j)
    else MatchAlternatives(q, j, groups[0], groups[1..])
  }

  /** Try the remaining alternatives `alts` of one group in order; the first
      one after which the `rest` of the expression matches decides the
      capture. */
  function MatchAlternatives(q: string, j: nat, alts: seq<string>, rest: seq<seq<string>>): (r: Option<string>)
    ensures r.Some? ==> IsVideoId(r.value)
    decreases |rest| + 1, |alts|
  {
    if alts == [] then None
    else
      var m := if StartsAt(q, j, alts[0]) then MatchGroups(q, j + |alts[0]|, rest) else None;
      if m.Some? then m else MatchAlternatives(q, j, alts[1..], rest)
  }

  /** The matcher finds only what the expression accepts. */
  lemma {:induction false} MatchGroupsSound(q: string, j: nat, groups: seq<seq<string>>, id: string)
    requires MatchGroups(q, j, groups) == Some(id)
    ensures GroupsPattern(q, j, groups, id)
    decreases |groups|
  {
    if groups != [] {
      MatchAlternativesSound(q, j, groups[0], groups[1..], id);
    }
  }

  lemma {:induction false} MatchAlternativesSound(q: string, j: nat, alts: seq<string>, rest: seq<seq<string>>, id: string)
    requires MatchAlternatives(q, j, alts, rest) == Some(id)
    ensures exists a :: a in alts && StartsAt(q, j, a) && GroupsPattern(q, j + |a|, rest, id)
    decreases |rest| + 1, |alts|
  {
    var a := alts[0];
    if StartsAt(q, j, a) && MatchGroups(q, j + |a|, rest).Some? {
      MatchGroupsSound(q, j + |a|, rest, id);
    } else {
      MatchAlternativesSound(q, j, alts[1..], rest, id);
      var b :| b in alts[1..] && StartsAt(q, j, b) && GroupsPattern(q, j + |b|, rest, id);
      assert b in alts;
    }
  }

  /** Whatever the expression accepts, the matcher finds something. */
  lemma {:induction false} MatchGroupsComplete(q: string, j: nat, groups: seq<seq<string>>, id: string)
    requires GroupsPattern(q, j, groups, id)
    ensures MatchGroups(q, j, groups).Some?
    decreases |groups|
  {
    if groups == [] {
      assert q[j..j + 11] == id;
    } else {
      var a :| a in groups[0] && StartsAt(q, j, a) && GroupsPattern(q, j + |a|, groups[1..], id);
      MatchAlternativesComplete(q, j, groups[0], groups[1..], a, id);
    }
  }

  lemma {:induction false} MatchAlternativesComplete(q: string, j: nat, alts: seq<string>, rest: seq<seq<string>>, a: string, id: string)
    requires a in alts && StartsAt(q, j, a) && GroupsPattern(q, j + |a|, rest, id)
    ensures MatchAlternatives(q, j, alts, rest).Some?
    decreases |rest| + 1, |alts|
  {
    if alts[0] == a {
      MatchGroupsComplete(q, j + |a|, rest, id);
    } else if !(StartsAt(q, j, alts[0]) && MatchGroups(q, j + |alts[0]|, rest).Some?) {
      MatchAlternativesComplete(q, j, alts[1..], rest, a, id);
    }
  }

  /** The video expression tried at index `i`. */
  function VideoMatchAt(q: string, i: nat): (r: Option<string>)
    ensures r.Some? ==> IsVideoId(r.value)
  {
    MatchGroups(q, i, VideoGroups)
  }

  /** What the video expression accepts at index `i` with capture `id`. */
  ghost predicate VideoPattern(q: string, i: nat, id: string)
  {
    GroupsPattern(q, i, VideoGroups, id)
  }

  /** The matcher at one index is sound and complete for the expression. */
  lemma VideoMatchAtMeaning(q: string, i: nat, id: string)
    ensures VideoMatchAt(q, i) == Some(id) ==> VideoPattern(q, i, id)
    ensures VideoPattern(q, i, id) ==> VideoMatchAt(q, i).Some?
  {
    if VideoMatchAt(q, i) == Some(id) {
      MatchGroupsSound(q, i, VideoGroups, id);
    }
    if VideoPattern(q, i, id) {
      MatchGroupsComplete(q, i, VideoGroups, id);
    }
  }

  /** Leftmost-match search for the video expression from index `i`. */
  function FindVideo(q: string, i: nat): (r: Option<string>)
    requires i <= |q|
    ensures r.Some? ==> exists k :: i <= k <= |q| && VideoMatchAt(q, k) == r
                                    && forall m :: i <= m < k ==> VideoMatchAt(q, m).None?
    ensures r.None? ==> forall k :: i <= k <= |q| ==> VideoMatchAt(q, k).None?
    decreases |q| - i
  {
    var here := VideoMatchAt(q, i);
    if here.Some? then here
    else if i == |q| then None
    else FindVideo(q, i + 1)
  }

  // ---------------------------------------------------------------------
  // validateYouTubeInput
  // ---------------------------------------------------------------------

  /** `{ isUrl, url, isPlaylist, playlistId, videoId }` */
  datatype YouTubeCheck = YouTubeCheck(
    isUrl: bool,
    url: Option<string>,
    isPlaylist: bool,
    playlistId: Option<string>,
    videoId: Option<string>)

  const NotYouTube: YouTubeCheck := YouTubeCheck(false, None, false, None, None)

  /** `https://www.youtube.com/watch?v=<id>`, then `&list=<pid>` when a
      (non-empty, hence truthy) playlist id was found. */
  function WatchUrl(videoId: string, playlistId: Option<string>): string
  {
    "https://www.youtube.com/watch?v=" + videoId
      + (if playlistId.Some? && playlistId.value != "" then "&list=" + playlistId.value else "")
  }

  function PlaylistUrl(playlistId: string): string
  {
    "https://www.youtube.com/playlist?list=" + playlistId
  }

  function ValidateYouTubeInput(q: string): (r: YouTubeCheck)
    ensures r.isUrl <==> r.videoId.Some? || r.playlistId.Some?
    ensures r.isPlaylist <==> r.playlistId.Some?
    ensures !r.isUrl ==> r == NotYouTube
    ensures r.videoId.Some? ==> IsVideoId(r.videoId.value)
                                && r.url == Some(WatchUrl(r.videoId.value, r.playlistId))
    ensures r.videoId.None? && r.playlistId.Some? ==> r.url == Some(PlaylistUrl(r.playlistId.value))
    ensures r.playlistId.Some? ==> |r.playlistId.value| > 0 && AllIdChars(r.playlistId.value)
  {
    var playlistId := FindListParam(q, 0);
    var videoId := FindVideo(q, 0);
    if videoId.Some? then
      YouTubeCheck(true, Some(WatchUrl(videoId.value, playlistId)), playlistId.Some?, playlistId, videoId)
    else if playlistId.Some? then
      YouTubeCheck(true, Some(PlaylistUrl(playlistId.value)), true, playlistId, None)
    else
      NotYouTube
  }

  /** `validateYouTubeInput` finds a video id exactly when the video
      expression occurs somewhere in the query, and then the one of the
      leftmost occurrence; likewise for the playlist parameter. */
  lemma YouTubeInputMeaning(q: string)
    ensures ValidateYouTubeInput(q).videoId.Some? <==> exists k, id :: 0 <= k <= |q| && VideoPattern(q, k, id)
    ensures ValidateYouTubeInput(q).videoId.Some? ==>
              exists k :: 0 <= k <= |q| && VideoPattern(q, k, ValidateYouTubeInput(q).videoId.value)
                          && forall m, id :: 0 <= m < k ==> !VideoPattern(q, m, id)
    ensures ValidateYouTubeInput(q).playlistId.Some? <==> exists k, pid :: 0 <= k <= |q| && ListParamPattern(q, k, pid)
    ensures ValidateYouTubeInput(q).playlistId.Some? ==>
              exists k :: 0 <= k <= |q| && ListParamPattern(q, k, ValidateYouTubeInput(q).playlistId.value)
                          && forall m, pid :: 0 <= m < k ==> !ListParamPattern(q, m, pid)
  {
    var r := ValidateYouTubeInput(q);
    var v := FindVideo(q, 0);
    var l := FindListParam(q, 0);
    forall k, id | 0 <= k <= |q| && VideoPattern(q, k, id)
      ensures v.Some?
    {
      VideoMatchAtMeaning(q, k, id);
    }
    if v.Some? {
      var k :| 0 <= k <= |q| && VideoMatchAt(q, k) == v && forall m :: 0 <= m < k ==> VideoMatchAt(q, m).None?;
      VideoMatchAtMeaning(q, k, v.value);
      forall m, id | 0 <= m < k
        ensures !VideoPattern(q, m, id)
      {
        VideoMatchAtMeaning(q, m, id);
      }
    }
    forall k, pid | 0 <= k <= |q| && ListParamPattern(q, k, pid)
      ensures l.Some?
    {
      ListParamAtMeaning(q, k, pid);
    }
    if l.Some? {
      var k :| 0 <= k <= |q| && ListParamAt(q, k) == l && forall m :: 0 <= m < k ==> !ListParamStartsAt(q, m);
      ListParamAtMeaning(q, k, l.value);
      forall m, pid | 0 <= m < k
        ensures !ListParamPattern(q, m, pid)
      {
        ListParamAtMeaning(q, m, pid);
      }
    }
  }

  // ---------------------------------------------------------------------
  // The canonical watch URL is recognised again
  // ---------------------------------------------------------------------

  const WatchPrefix: string := "https://www.youtube.com/watch?v="

  /** One step of backtracking: when the first alternative of the first group
      leads to a match, that match is the result. */
  lemma FirstAlternativeWins(q: string, j: nat, groups: seq<seq<string>>, id: string)
    requires groups != [] && groups[0] != [] && StartsAt(q, j, groups[0][0])
    requires MatchGroups(q, j + |groups[0][0]|, groups[1..]) == Some(id)
    ensures MatchGroups(q, j, groups) == Some(id)
  {
  }

  lemma StartsAtMiddle(a: string, b: string, c: string)
    ensures StartsAt(a + b + c, |a|, b)
  {
    assert (a + b + c)[|a|..|a| + |b|] == b;
  }

  /** The video expression matches a canonical watch URL at its start, taking
      the first alternative of every group, and captures the id. */
  lemma WatchUrlVideoMatch(id: string, tail: string)
    requires IsVideoId(id)
    ensures VideoMatchAt(WatchPrefix + id + tail, 0) == Some(id)
  {
    var q := "https://" + "www." + "youtube.com/" + "watch?v=" + (id + tail);
    assert q == WatchPrefix + id + tail;
    assert VideoIdAt(q, 32) == Some(id) by { assert q[32..43] == id; }
    StartsAtMiddle("https://www.youtube.com/", "watch?v=", id + tail);
    FirstAlternativeWins(q, 24, VideoGroups[3..], id);
    StartsAtMiddle("https://www.", "youtube.com/", "watch?v=" + id + tail);
    FirstAlternativeWins(q, 12, VideoGroups[2..], id);
    StartsAtMiddle("https://", "www.", "youtube.com/watch?v=" + id + tail);
    FirstAlternativeWins(q, 8, VideoGroups[1..], id);
    StartsAtMiddle([], "https://", "www.youtube.com/watch?v=" + id + tail);
    FirstAlternativeWins(q, 0, VideoGroups, id);
  }

  /** Positions where no playlist parameter can start do not change the
      leftmost search. */
  lemma {:induction false} FindListParamSkips(q: string, i: nat, k: nat)
    requires i <= k <= |q|
    requires forall m :: i <= m < k ==> !ListParamStartsAt(q, m)
    ensures FindListParam(q, i) == FindListParam(q, k)
    decreases k - i
  {
    if i < k {
      FindListParamStep(q, i);
      FindListParamSkips(q, i + 1, k);
    }
  }

  lemma FindListParamStep(q: string, i: nat)
    requires i < |q| && !ListParamStartsAt(q, i)
    ensures FindListParam(q, i) == FindListParam(q, i + 1)
  {
  }

  /** A playlist parameter starts with `?l` or `&l`. */
  lemma ListParamStartChars(q: string, m: nat)
    ensures ListParamStartsAt(q, m) ==> (q[m] == '?' || q[m] == '&') && q[m + 1] == 'l'
  {
    if ListParamStartsAt(q, m) {
      var w := q[m..m + 6];
      assert q[m] == w[0] && q[m + 1] == w[1];
    }
  }

  /** The watch prefix's only `?` is followed by `v`, and it has no `&`. */
  lemma WatchPrefixOneQuery()
    ensures forall m :: 0 <= m < 32 && m != 29 ==> WatchPrefix[m] != '?' && WatchPrefix[m] != '&'
    ensures WatchPrefix[30] == 'v'
  {
  }

  /** No playlist parameter starts inside a canonical watch URL's prefix and
      video id. */
  lemma NoListParamInWatchUrl(id: string, tail: string)
    requires IsVideoId(id)
    ensures forall m :: 0 <= m < 43 ==> !ListParamStartsAt(WatchPrefix + id + tail, m)
  {
    var q := WatchPrefix + id + tail;
    WatchPrefixOneQuery();
    forall m | 0 <= m < 43
      ensures !ListParamStartsAt(q, m)
    {
      ListParamStartChars(q, m);
      if m < 32 {
        assert q[m] == WatchPrefix[m];
        assert q[30] == WatchPrefix[30];
      } else {
        assert q[m] == id[m - 32];
      }
    }
  }

  /** The canonical watch URL as a prefix, the id and the playlist suffix. */
  lemma WatchUrlParts(id: string, playlistId: Option<string>)
    ensures WatchUrl(id, playlistId)
         == WatchPrefix + id + (if playlistId.Some? && playlistId.value != "" then "&list=" + playlistId.value else "")
  {
  }

  /** The playlist search on a canonical watch URL finds exactly the playlist
      id it was built with. */
  lemma WatchUrlPlaylist(id: string, playlistId: Option<string>)
    requires IsVideoId(id)
    requires playlistId.Some? ==> |playlistId.value| > 0 && AllIdChars(playlistId.value)
    ensures FindListParam(WatchUrl(id, playlistId), 0) == playlistId
  {
    var tail := if playlistId.Some? then "&list=" + playlistId.value else "";
    var q := WatchPrefix + id + tail;
    WatchUrlParts(id, playlistId);
    NoListParamInWatchUrl(id, tail);
    FindListParamSkips(q, 0, 43);
    if playlistId.Some? {
      PlaylistSuffixMatches(WatchPrefix + id, playlistId.value);
    }
  }

  /** The `&list=<pid>` suffix of a URL is matched where it starts, and the
      greedy run captures all of `pid`. */
  lemma PlaylistSuffixMatches(head: string, pid: string)
    requires |pid| > 0 && AllIdChars(pid)
    ensures ListParamAt(head + ("&list=" + pid), |head|) == Some(pid)
  {
    var q := head + ("&list=" + pid);
    var i := |head| + 6;
    StartsAtMiddle(head, "&list=", pid);
    assert head + "&list=" + pid == q;
    assert forall k :: i <= k < |q| ==> q[k] == pid[k - i];
    IdRunEndIsUnique(q, i, |q|);
    assert q[i..|q|] == pid;
  }

  /** The URL `validateYouTubeInput` builds for a video is recognised again with
      the same video id and the same playlist id: normalising twice is
      normalising once. */
  lemma WatchUrlRecognised(id: string, playlistId: Option<string>)
    requires IsVideoId(id)
    requires playlistId.Some? ==> |playlistId.value| > 0 && AllIdChars(playlistId.value)
    ensures ValidateYouTubeInput(WatchUrl(id, playlistId))
         == YouTubeCheck(true, Some(WatchUrl(id, playlistId)), playlistId.Some?, playlistId, Some(id))
  {
    var tail := if playlistId.Some? then "&list=" + playlistId.value else "";
    WatchUrlParts(id, playlistId);
    WatchUrlVideoMatch(id, tail);
    WatchUrlPlaylist(id, playlistId);
  }

  // ---------------------------------------------------------------------
  // validateSoundCloudInput: three anchored expressions
  //   ^(?:https?:\/\/)?(?:www\.)?soundcloud\.com\/([id]+)\/([id]+)(?:[\/\?].*)?$
  //   ^(?:https?:\/\/)?on\.soundcloud\.com\/[a-zA-Z0-9]+(?:\?.*)?$
  //   ^(?:https?:\/\/)?m\.soundcloud\.com\/([id]+)\/([id]+)(?:[\/\?].*)?$
  // ---------------------------------------------------------------------

  /** The optional tail up to the end anchor: `(?:[\/\?].*)?$`, or
      `(?:\?.*)?$` when `slash` is false. `.` does not match a line
      terminator, and `$` without the multiline flag is the end of input. */
  predicate TailOk(t: string, slash: bool)
  {
    t == [] || ((t[0] == '?' || (slash && t[0] == '/'))
                && forall k :: 1 <= k < |t| ==> !IsLineTerminator(t[k]))
  }

  /** What `([id]+)\/([id]+)` and the tail accept: two non-empty id runs
      separated by a slash. */
  ghost predicate TrackPathShape(p: string)
  {
    exists a, b, t :: p == a + "/" + b + t && |a| > 0 && AllIdChars(a) && |b| > 0 && AllIdChars(b) && TailOk(t, true)
  }

  /** The track path checked with greedy runs: as `/`, `?` and the end are
      all outside the id class, greedy matching is the only way to match. */
  function TrackPathOk(p: string): bool
  {
    var e1 := IdRunEnd(p, 0);
    && 0 < e1 < |p| && p[e1] == '/'
    && var e2 := IdRunEnd(p, e1 + 1);
       e2 > e1 + 1 && TailOk(p[e2..], true)
  }

  lemma TrackPathOkSound(p: string)
    requires TrackPathOk(p)
    ensures TrackPathShape(p)
  {
    var e1 := IdRunEnd(p, 0);
    var e2 := IdRunEnd(p, e1 + 1);
    var a, b, t := p[..e1], p[e1 + 1..e2], p[e2..];
    assert p == a + "/" + b + t;
    assert AllIdChars(a) by { assert forall k :: 0 <= k < |a| ==> a[k] == p[k]; }
    assert AllIdChars(b) by { assert forall k :: 0 <= k < |b| ==> b[k] == p[e1 + 1 + k]; }
    assert TailOk(t, true);
  }

  lemma TrackPathOkComplete(p: string, a: string, b: string, t: string)
    requires p == a + "/" + b + t && |a| > 0 && AllIdChars(a) && |b| > 0 && AllIdChars(b) && TailOk(t, true)
    ensures TrackPathOk(p)
  {
    assert p[|a|] == '/';
    assert forall k :: 0 <= k < |a| ==> p[k] == a[k];
    IdRunEndIsUnique(p, 0, |a|);
    var e2 := |a| + 1 + |b|;
    assert forall k :: |a| + 1 <= k < e2 ==> p[k] == b[k - |a| - 1];
    assert p[e2..] == t;
    assert e2 < |p| ==> p[e2] == t[0];
    IdRunEndIsUnique(p, |a| + 1, e2);
  }

  lemma TrackPathOkMeaning(p: string)
    ensures TrackPathOk(p) <==> TrackPathShape(p)
  {
    if TrackPathOk(p) {
      TrackPathOkSound(p);
    }
    if TrackPathShape(p) {
      var a, b, t :| p == a + "/" + b + t && |a| > 0 && AllIdChars(a) && |b| > 0 && AllIdChars(b) && TailOk(t, true);
      TrackPathOkComplete(p, a, b, t);
    }
  }

  /** What `[a-zA-Z0-9]+(?:\?.*)?$` accepts. */
  ghost predicate ShortPathShape(p: string)
  {
    exists a, t :: p == a + t && |a| > 0 && (forall k :: 0 <= k < |a| ==> IsAlnum(a[k])) && TailOk(t, false)
  }

  function ShortPathOk(p: string): bool
  {
    var e := AlnumRunEnd(p, 0);
    e > 0 && TailOk(p[e..], false)
  }

  lemma ShortPathOkMeaning(p: string)
    ensures ShortPathOk(p) <==> ShortPathShape(p)
  {
    if ShortPathOk(p) {
      var e := AlnumRunEnd(p, 0);
      assert p == p[..e] + p[e..];
    }
    if ShortPathShape(p) {
      var a, t :| p == a + t && |a| > 0 && (forall k :: 0 <= k < |a| ==> IsAlnum(a[k])) && TailOk(t, false);
      assert |a| < |p| ==> p[|a|] == t[0];
      AlnumRunEndIsUnique(p, 0, |a|);
      assert p[|a|..] == t;
    }
  }

  /** The three expressions after the optional scheme, with the greedy
      path matchers: `(?:www\.)?soundcloud\.com\/` (either way), then
      `on\.soundcloud\.com\/` and `m\.soundcloud\.com\/`. */
  predicate HostAndPath(r: string)
  {
    || (StartsWith(r, "www.soundcloud.com/") && TrackPathOk(r[19..]))
    || (StartsWith(r, "soundcloud.com/") && TrackPathOk(r[15..]))
    || (StartsWith(r, "on.soundcloud.com/") && ShortPathOk(r[18..]))
    || (StartsWith(r, "m.soundcloud.com/") && TrackPathOk(r[17..]))
  }

  /** The same alternatives stated with the existential path shapes. */
  ghost predicate HostAndPathShape(r: string)
  {
    || (StartsWith(r, "www.soundcloud.com/") && TrackPathShape(r[19..]))
    || (StartsWith(r, "soundcloud.com/") && TrackPathShape(r[15..]))
    || (StartsWith(r, "on.soundcloud.com/") && ShortPathShape(r[18..]))
    || (StartsWith(r, "m.soundcloud.com/") && TrackPathShape(r[17..]))
  }

  /** `pattern.test(query)` for any of the three expressions: the optional
      `(?:https?:\/\/)?` is `https://`, `http://` or nothing. */
  predicate IsSoundCloudUrl(q: string)
  {
    || (StartsWith(q, "https://") && HostAndPath(q[8..]))
    || (StartsWith(q, "http://") && HostAndPath(q[7..]))
    || HostAndPath(q)
  }

  /** What the three expressions accept. */
  ghost predicate SoundCloudShape(q: string)
  {
    || (StartsWith(q, "https://") && HostAndPathShape(q[8..]))
    || (StartsWith(q, "http://") && HostAndPathShape(q[7..]))
    || HostAndPathShape(q)
  }

  lemma HostAndPathMeaning(r: string)
    ensures HostAndPath(r) <==> HostAndPathShape(r)
  {
    if |r| >= 15 { TrackPathOkMeaning(r[15..]); }
    if |r| >= 17 { TrackPathOkMeaning(r[17..]); }
    if |r| >= 18 { ShortPathOkMeaning(r[18..]); }
    if |r| >= 19 { TrackPathOkMeaning(r[19..]); }
  }

  lemma IsSoundCloudUrlMeaning(q: string)
    ensures IsSoundCloudUrl(q) <==> SoundCloudShape(q)
  {
    HostAndPathMeaning(q);
    if |q| >= 7 { HostAndPathMeaning(q[7..]); }
    if |q| >= 8 { HostAndPathMeaning(q[8..]); }
  }

  /** `{ isUrl, url, isPlaylist, platform: 'soundcloud' }`; the platform is a
      constant and is left implicit. */
  datatype SoundCloudCheck = SoundCloudCheck(isUrl: bool, url: Option<string>, isPlaylist: bool)

  const NotSoundCloud: SoundCloudCheck := SoundCloudCheck(false, None, false)

  predicate HasHttpScheme(q: string)
  {
    StartsWith(q, "http://") || StartsWith(q, "https://")
  }

  /** The URL with `https://` put in front unless it already names a scheme. */
  function NormalizeUrl(q: string): (r: string)
    ensures HasHttpScheme(r)
    ensures HasHttpScheme(q) ==> r == q
    ensures r == q || (StartsWith(r, "https://") && r[8..] == q)
  {
    if HasHttpScheme(q) then q else "https://" + q
  }

  /** Normalising is idempotent. */
  lemma NormalizeUrlIdempotent(q: string)
    ensures NormalizeUrl(NormalizeUrl(q)) == NormalizeUrl(q)
  {
  }

  function ValidateSoundCloudInput(q: string): (r: SoundCloudCheck)
    ensures r.isUrl <==> SoundCloudShape(q)
    ensures !r.isUrl ==> r == NotSoundCloud
    ensures r.isUrl ==> r.url.Some? && HasHttpScheme(r.url.value)
                        && (r.url.value == q || r.url.value == "https://" + q)
    ensures r.isUrl ==> (r.isPlaylist <==> exists k :: 0 <= k <= |r.url.value| && StartsAt(r.url.value, k, "/sets/"))
  {
    IsSoundCloudUrlMeaning(q);
    if IsSoundCloudUrl(q) then
      var url := NormalizeUrl(q);
      SoundCloudCheck(true, Some(url), Includes(url, "/sets/"))
    else
      NotSoundCloud
  }

  /** A SoundCloud URL without a scheme matches the expressions through the
      empty scheme alternative; with `https://` in front it matches through
      the first. */
  lemma SchemeAddedStillMatches(q: string)
    requires IsSoundCloudUrl(q) && !HasHttpScheme(q)
    ensures IsSoundCloudUrl("https://" + q)
  {
    var u := "https://" + q;
    assert u[8..] == q;
    assert u[..8] == "https://";
  }

  /** The URL `validateSoundCloudInput` returns is accepted again and
      returned unchanged, with the same playlist flag. */
  lemma SoundCloudNormalizedRecognised(q: string)
    requires ValidateSoundCloudInput(q).isUrl
    ensures ValidateSoundCloudInput(ValidateSoundCloudInput(q).url.value) == ValidateSoundCloudInput(q)
  {
    IsSoundCloudUrlMeaning(q);
    if !HasHttpScheme(q) {
      SchemeAddedStillMatches(q);
    }
  }

  // ---------------------------------------------------------------------
  // validateMusicInput
  // ---------------------------------------------------------------------

  /** The merged result: the SoundCloud result spread (its missing
      `playlistId` and `videoId` are `None`) or the YouTube one, tagged with
      the platform. */
  datatype MusicCheck = MusicCheck(
    platform: Platform,
    isUrl: bool,
    url: Option<string>,
    isPlaylist: bool,
    playlistId: Option<string>,
    videoId: Option<string>)

  function ValidateMusicInput(q: string): (r: MusicCheck)
    ensures r.platform == SoundCloud <==> ValidateSoundCloudInput(q).isUrl
    ensures r.isUrl <==> ValidateSoundCloudInput(q).isUrl || ValidateYouTubeInput(q).isUrl
    ensures r.platform == SoundCloud ==>
              r.url == ValidateSoundCloudInput(q).url && r.isPlaylist == ValidateSoundCloudInput(q).isPlaylist
              && r.playlistId.None? && r.videoId.None?
    ensures r.platform == YouTube ==>
              var y := ValidateYouTubeInput(q);
              r.isUrl == y.isUrl && r.url == y.url && r.isPlaylist == y.isPlaylist
              && r.playlistId == y.playlistId && r.videoId == y.videoId
  {
    var sc := ValidateSoundCloudInput(q);
    if sc.isUrl then
      MusicCheck(SoundCloud, true, sc.url, sc.isPlaylist, None, None)
    else
      var yt := ValidateYouTubeInput(q);
      if yt.isUrl then
        MusicCheck(YouTube, true, yt.url, yt.isPlaylist, yt.playlistId, yt.videoId)
      else
        MusicCheck(YouTube, false, None, false, None, None)
  }

  /** A query is treated as a URL exactly when one of the expressions occurs
      in it (the SoundCloud ones over the whole query); anything else is a
      YouTube search. */
  lemma MusicInputMeaning(q: string)
    ensures ValidateMusicInput(q).isUrl <==>
              SoundCloudShape(q)
              || (exists k, id :: 0 <= k <= |q| && VideoPattern(q, k, id))
              || (exists k, pid :: 0 <= k <= |q| && ListParamPattern(q, k, pid))
    ensures !ValidateMusicInput(q).isUrl ==> ValidateMusicInput(q) == MusicCheck(YouTube, false, None, false, None, None)
  {
    YouTubeInputMeaning(q);
  }

  // ---------------------------------------------------------------------
  // The checks the command handlers run first
  // ---------------------------------------------------------------------

  /** `{ valid, channel, error }` for the member's voice channel. */
  datatype VoiceCheck<C> = VoiceCheck(valid: bool, channel: Option<C>, error: Option<string>)

  /** `interaction.member.voice.channel`, `None` when the member is not in a
      voice channel. */
  function ValidateVoiceChannel<C>(voiceChannel: Option<C>): (r: VoiceCheck<C>)
    ensures r.valid <==> voiceChannel.Some?
    ensures r.valid ==> r.channel == voiceChannel && r.error.None?
    ensures !r.valid ==> r.channel.None? && r.error == Some(NoVoiceChannelMessage)
  {
    if voiceChannel.None? then VoiceCheck(false, None, Some(NoVoiceChannelMessage))
    else VoiceCheck(true, voiceChannel, None)
  }

  /** `{ valid, error }` */
  datatype Check = Check(valid: bool, error: Option<string>)

  /** `perms.every(perm => granted.has(perm))` */
  function Every(perms: seq<string>, granted: set<string>): (r: bool)
    ensures r <==> forall p :: p in perms ==> p in granted
  {
    if perms == [] then true else perms[0] in granted && Every(perms[1..], granted)
  }

  /** The bot's permission set in the channel is `granted`. */
  function ValidateBotPermissions(granted: set<string>): (r: Check)
    ensures r.valid <==> "Connect" in granted && "Speak" in granted
    ensures r.valid <==> r.error.None?
    ensures !r.valid ==> r.error == Some(NoPermissionsMessage)
  {
    if !Every(RequiredPermissions, granted) then Check(false, Some(NoPermissionsMessage))
    else Check(true, None)
  }

  /** Something is playing or waiting. */
  function ValidateMusicPlaying(currentSong: Option<Song>, upcoming: seq<Song>): (r: Check)
    ensures r.valid <==> currentSong.Some? || |upcoming| > 0
    ensures r.valid <==> r.error.None?
    ensures !r.valid ==> r.error == Some(NoMusicPlayingMessage)
  {
    if currentSong.None? && |upcoming| == 0 then Check(false, Some(NoMusicPlayingMessage))
    else Check(true, None)
  }

  /** `{ valid, currentSong, error }` */
  datatype SongCheck = SongCheck(valid: bool, currentSong: Option<Song>, error: Option<string>)

  function ValidateSongPlaying(currentSong: Option<Song>): (r: SongCheck)
    ensures r.valid <==> currentSong.Some?
    ensures r.currentSong == currentSong
    ensures r.valid <==> r.error.None?
    ensures !r.valid ==> r.error == Some(NoSongPlayingMessage)
  {
    if currentSong.None? then SongCheck(false, None, Some(NoSongPlayingMessage))
    else SongCheck(true, currentSong, None)
  }

  /** A song playing is the stricter check: it implies music playing, but
      not the other way round (a queue that waits with nothing current). */
  lemma SongPlayingIsStricter(currentSong: Option<Song>, upcoming: seq<Song>, s: Song)
    ensures ValidateSongPlaying(currentSong).valid ==> ValidateMusicPlaying(currentSong, upcoming).valid
    ensures ValidateMusicPlaying(None, [s]).valid && !ValidateSongPlaying(None).valid
  {
  }

  // ---------------------------------------------------------------------
  // Cases the source's own unit tests pin down, stated for all inputs of
  // their shape where the shape allows it
  // ---------------------------------------------------------------------

  lemma SplitAfter(x: string, y: string)
    ensures StartsWith(x + y, x) && (x + y)[|x|..] == y
  {
    assert (x + y)[..|x|] == x;
  }

  lemma SchemeNeedsH(q: string)
    requires q != [] && q[0] != 'h'
    ensures !HasHttpScheme(q)
  {
    if |q| >= 7 { assert q[..7][0] == q[0]; }
    if |q| >= 8 { assert q[..8][0] == q[0]; }
  }

  lemma TrackUrlWithoutSchemeMatches(a: string, b: string)
    requires |a| > 0 && AllIdChars(a) && |b| > 0 && AllIdChars(b)
    ensures IsSoundCloudUrl("soundcloud.com/" + (a + "/" + b))
  {
    var p := a + "/" + b;
    var q := "soundcloud.com/" + p;
    SplitAfter("soundcloud.com/", p);
    assert p + "" == p;
    TrackPathOkComplete(p, a, b, "");
  }

  /** `soundcloud.com/artist/track-name` is a SoundCloud URL and gets
      `https://` in front. */
  lemma SoundCloudTrackWithoutScheme(a: string, b: string)
    requires |a| > 0 && AllIdChars(a) && |b| > 0 && AllIdChars(b)
    ensures ValidateSoundCloudInput("soundcloud.com/" + (a + "/" + b)).isUrl
    ensures ValidateSoundCloudInput("soundcloud.com/" + (a + "/" + b)).url
         == Some("https://" + ("soundcloud.com/" + (a + "/" + b)))
    ensures ValidateMusicInput("soundcloud.com/" + (a + "/" + b)).platform == SoundCloud
  {
    var q := "soundcloud.com/" + (a + "/" + b);
    TrackUrlWithoutSchemeMatches(a, b);
    SchemeNeedsH(q);
  }

  /** Every SoundCloud host is at least `soundcloud.com/` long. */
  lemma ShortQueryNotSoundCloud(q: string)
    requires |q| < 15
    ensures !IsSoundCloudUrl(q)
  {
  }

  /** The capture alone needs 11 characters. */
  lemma {:induction false} MatchGroupsNeedsRoom(q: string, j: nat, groups: seq<seq<string>>)
    requires MatchGroups(q, j, groups).Some?
    ensures j + 11 <= |q|
    decreases |groups|, if groups == [] then 0 else |groups[0]| + 1
  {
    if groups != [] {
      MatchAlternativesNeedsRoom(q, j, groups[0], groups[1..]);
    }
  }

  lemma {:induction false} MatchAlternativesNeedsRoom(q: string, j: nat, alts: seq<string>, rest: seq<seq<string>>)
    requires MatchAlternatives(q, j, alts, rest).Some?
    ensures j + 11 <= |q|
    decreases |rest| + 1, |alts|
  {
    if StartsAt(q, j, alts[0]) && MatchGroups(q, j + |alts[0]|, rest).Some? {
      MatchGroupsNeedsRoom(q, j + |alts[0]|, rest);
    } else {
      MatchAlternativesNeedsRoom(q, j, alts[1..], rest);
    }
  }

  /** A query shorter than a video id names no video. */
  lemma ShortQueryNoVideo(q: string)
    requires |q| < 11
    ensures ValidateYouTubeInput(q).videoId.None?
  {
    forall k, id | 0 <= k <= |q| && VideoMatchAt(q, k) == Some(id)
      ensures false
    {
      MatchGroupsNeedsRoom(q, k, VideoGroups);
    }
  }

  /** A query shorter than `?list=` plus one character, such as the empty
      query, is a YouTube search. */
  lemma ShortQueryIsSearch(q: string)
    requires |q| < 7
    ensures ValidateYouTubeInput(q) == NotYouTube
    ensures ValidateMusicInput(q) == MusicCheck(YouTube, false, None, false, None, None)
  {
    ShortQueryNotSoundCloud(q);
    ShortQueryNoVideo(q);
    forall k, pid | 0 <= k <= |q| && ListParamAt(q, k) == Some(pid)
      ensures false
    {
    }
  }
}
