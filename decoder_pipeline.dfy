/** The pure part of `playNext` in utils/musicQueue.js: checking the direct
    media URL the resolver printed, and building the decoder's argument list. */
module DecoderPipeline {
  import opened Outcomes
  import opened Text
  import opened Constants

  // ---------------------------------------------------------------------
  // The resolved URL
  // ---------------------------------------------------------------------

  /** The resolver's output (`Failure` when the subprocess failed), trimmed,
      and accepted only when it is non-empty and starts with `http`. */
  function ResolveDirectUrl(output: Result<string, string>): (r: Option<string>)
    ensures r.Some? ==> output.Success? && r.value == Trim(output.value)
    ensures r.Some? ==> StartsWith(r.value, "http")
    ensures r.Some? ==> !IsJsSpace(r.value[0]) && !IsJsSpace(r.value[|r.value| - 1])
    ensures output.Success? && StartsWith(Trim(output.value), "http") ==> r.Some?
  {
    match output
    case Failure(_) => None
    case Success(text) =>
      var directUrl := Trim(text);
      if directUrl == [] || !StartsWith(directUrl, "http") then None else Some(directUrl)
  }

  /** The resolver prints the URL followed by a newline (or any trailing white
      space): the URL itself is what is accepted. */
  lemma ResolverLineAccepted(url: string, trailing: string)
    requires StartsWith(url, "http") && !IsJsSpace(url[|url| - 1])
    requires forall k :: 0 <= k < |trailing| ==> IsJsSpace(trailing[k])
    ensures ResolveDirectUrl(Success(url + trailing)) == Some(url)
  {
    assert url[0] == 'h';
    TrimDropsTrailingSpace(url, trailing);
  }

  /** An accepted URL is accepted again unchanged. */
  lemma ResolveDirectUrlIdempotent(output: Result<string, string>)
    requires ResolveDirectUrl(output).Some?
    ensures ResolveDirectUrl(Success(ResolveDirectUrl(output).value)) == ResolveDirectUrl(output)
  {
    TrimIdempotent(output.value);
  }

  /** Output that is only white space, or names no `http` URL, is rejected. */
  lemma ResolverGarbageRejected(text: string)
    requires !StartsWith(Trim(text), "http")
    ensures ResolveDirectUrl(Success(text)).None?
  {
  }

  // ---------------------------------------------------------------------
  // The decoder's argument list
  // ---------------------------------------------------------------------

  /** Reconnect options, the input and the probing options. */
  function InputArgs(url: string): seq<string>
  {
    ["-reconnect", Reconnect, "-reconnect_streamed", ReconnectStreamed,
     "-reconnect_delay_max", ReconnectDelayMax, "-i", url,
     "-analyzeduration", AnalyzeDuration, "-loglevel", LogLevel]
  }

  /** Tracks under two hours get `loudnorm`, longer ones `dynaudnorm`. */
  function FilterFor(duration: int): string
  {
    if duration < TwoHoursSeconds then LoudnormFilter else DynaudnormFilter
  }

  function NormalizationArgs(duration: int): seq<string>
  {
    if NormalizationEnabled then ["-af", FilterFor(duration)] else []
  }

  const OutputArgs: seq<string> := ["-f", PcmFormat, "-ar", SampleRate, "-ac", AudioChannels, "pipe:1"]

  /** The whole list, as a specification of the builder below. */
  function DecoderArgs(url: string, duration: int): seq<string>
  {
    InputArgs(url) + NormalizationArgs(duration) + OutputArgs
  }

  /** `ffmpegArgs`, built by pushing onto a list as the source does. */
  method BuildDecoderArgs(directUrl: string, duration: int) returns (args: seq<string>)
    ensures args == DecoderArgs(directUrl, duration)
  {
    args := ["-reconnect", Reconnect, "-reconnect_streamed", ReconnectStreamed,
             "-reconnect_delay_max", ReconnectDelayMax, "-i", directUrl,
             "-analyzeduration", AnalyzeDuration, "-loglevel", LogLevel];
    if NormalizationEnabled {
      if duration < TwoHoursSeconds {
        args := args + ["-af", LoudnormFilter];
      } else {
        args := args + ["-af", DynaudnormFilter];
      }
    }
    args := args + ["-f", PcmFormat, "-ar", SampleRate, "-ac", AudioChannels];
    args := args + ["pipe:1"];
  }

  /** Where everything sits: the input after `-i`, the filter after `-af`,
      the raw PCM output last. */
  lemma DecoderArgsLayout(url: string, duration: int)
    ensures var args := DecoderArgs(url, duration);
            && |args| == 21
            && args[6] == "-i" && args[7] == url
            && args[12] == "-af"
            && args[13] == (if duration < 7200 then "loudnorm=I=-16:LRA=11:TP=-1.5"
                            else "dynaudnorm=f=500:g=31:p=0.95:m=10.0:r=0.9:b=1")
            && args[14..] == ["-f", "s16le", "-ar", "48000", "-ac", "2", "pipe:1"]
  {
    var input, norm := InputArgs(url), NormalizationArgs(duration);
    assert |input| == 12 && |norm| == 2 && |OutputArgs| == 7;
    var args := input + norm + OutputArgs;
    assert args[..12] == input && args[12..14] == norm && args[14..] == OutputArgs;
  }

  /** How a command-line reader finds an option's value: the word after the
      first occurrence of `flag`. */
  function ValueAfter(args: seq<string>, flag: string): (r: Option<string>)
    ensures r.Some? ==> exists i :: 0 <= i < |args| - 1 && args[i] == flag && args[i + 1] == r.value
    ensures r.None? ==> forall i :: 0 <= i < |args| - 1 ==> args[i] != flag
  {
    if |args| < 2 then None
    else if args[0] == flag then Some(args[1])
    else ValueAfter(args[1..], flag)
  }

  lemma {:induction false} ValueAfterFirst(args: seq<string>, flag: string, i: nat)
    requires i + 1 < |args| && args[i] == flag
    requires forall j :: 0 <= j < i ==> args[j] != flag
    ensures ValueAfter(args, flag) == Some(args[i + 1])
    decreases i
  {
    if i > 0 {
      ValueAfterFirst(args[1..], flag, i - 1);
    }
  }

  /** Reading the list back gives the URL and the filter that went in: the
      URL, which starts with `http`, is never mistaken for an option. */
  lemma DecoderArgsRoundTrip(url: string, duration: int)
    requires StartsWith(url, "http")
    ensures ValueAfter(DecoderArgs(url, duration), "-i") == Some(url)
    ensures ValueAfter(DecoderArgs(url, duration), "-af") == Some(FilterFor(duration))
  {
    var args := DecoderArgs(url, duration);
    DecoderArgsLayout(url, duration);
    assert url[0] == 'h';
    ValueAfterFirst(args, "-i", 6);
    assert url != "-af" by { assert "-af"[0] != url[0]; }
    ValueAfterFirst(args, "-af", 12);
  }
}
