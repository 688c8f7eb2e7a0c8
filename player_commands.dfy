/** The transcoder command lines the session builds, and the filter graph
    chosen from the requested and the current filter. All pure text. */
module PlayerCommands {
  import opened FilterIds
  import opened Wrappers

  const QUOTE: char := '"'

  /** A command-line argument in double quotes. */
  function Quoted(s: string): string {
    [QUOTE] + s + [QUOTE]
  }

  /** Copy the video at `videoPath` to `newPath` (asyncSaveVideo). */
  function SaveCommand(videoPath: string, newPath: string): (cmd: string)
    ensures QUOTE !in newPath ==> LastQuotedArgument(cmd) == Some(newPath)
  {
    var prefix := "-i " + Quoted(videoPath) + " ";
    if QUOTE in newPath then prefix + Quoted(newPath)
    else LastQuotedArgumentOf(prefix, newPath); prefix + Quoted(newPath)
  }

  /** Keep the video stream of the first input, take the audio of the second,
      and stop at the shorter of the two (asyncSaveWithNewAudio). */
  function ReplaceAudioCommand(videoPath: string, audioPath: string, newPath: string): (cmd: string)
    ensures QUOTE !in newPath ==> LastQuotedArgument(cmd) == Some(newPath)
  {
    var prefix := "-i " + Quoted(videoPath) + " -i " + Quoted(audioPath)
                  + " -c:v copy -map 0:v:0 -map 1:a:0 -shortest ";
    if QUOTE in newPath then prefix + Quoted(newPath)
    else LastQuotedArgumentOf(prefix, newPath); prefix + Quoted(newPath)
  }

  /** Re-encode the video through the filter parameters `params` (the colour
      filter intent). With empty parameters this is a plain copy. */
  function FilterCommand(videoPath: string, params: string, newPath: string): (cmd: string)
    ensures QUOTE !in newPath ==> LastQuotedArgument(cmd) == Some(newPath)
  {
    var prefix := "-i " + Quoted(videoPath) + " " + params + " ";
    if QUOTE in newPath then prefix + Quoted(newPath)
    else LastQuotedArgumentOf(prefix, newPath); prefix + Quoted(newPath)
  }

  /** The three colour channels of the gamma filter. */
  datatype Channel = Red | Green | Blue

  /** The channel a filter id raises; none for NO_FILTER or an unknown id. */
  function ChannelOf(filter: int): (c: Option<Channel>)
    ensures c.Some? <==> IsColorFilter(filter)
  {
    if filter == RED_FILTER then Some(Red)
    else if filter == GREEN_FILTER then Some(Green)
    else if filter == BLUE_FILTER then Some(Blue)
    else None
  }

  /** Reference definition: the gamma of `channel` under `filter` is 1.5 on the
      filter's own channel and 1 everywhere else. */
  function Multiplier(filter: int, channel: Channel): string {
    if ChannelOf(filter) == Some(channel) then "1.5" else "1"
  }

  /** The ffmpeg `eq` gamma graph with the given per-channel multipliers. */
  function GammaGraph(rMult: string, gMult: string, bMult: string): (graph: string)
    ensures |graph| == 33 + |rMult| + |gMult| + |bMult|
    ensures graph[..7] == "-vf eq="
  {
    "-vf eq=gamma_r=" + rMult + ":gamma_g=" + gMult + ":gamma_b=" + bMult
  }

  /** createParamsForFilterCommand: no parameters when the requested filter is
      already baked in; otherwise a gamma graph computed from the requested
      filter alone (the current filter is never subtracted, so filters
      override rather than compose). */
  function FilterParams(newFilter: int, currentColorFilter: int): (params: string)
    ensures params == "" <==> newFilter == currentColorFilter
    ensures newFilter != currentColorFilter ==>
      params == GammaGraph(Multiplier(newFilter, Red), Multiplier(newFilter, Green), Multiplier(newFilter, Blue))
  {
    if newFilter == currentColorFilter then ""
    else
      var mults :=
        if newFilter == RED_FILTER then (RED_FILTER_MULTIPLIER, "1", "1")
        else if newFilter == GREEN_FILTER then ("1", GREEN_FILTER_MULTIPLIER, "1")
        else if newFilter == BLUE_FILTER then ("1", "1", BLUE_FILTER_MULTIPLIER)
        else ("1", "1", "1");
      GammaGraph(mults.0, mults.1, mults.2)
  }

  /** At most one channel is raised to 1.5, and only by a selectable filter. */
  lemma OneChannelRaised(filter: int, a: Channel, b: Channel)
    requires Multiplier(filter, a) == "1.5" && Multiplier(filter, b) == "1.5"
    ensures a == b && IsColorFilter(filter)
  {
  }

  /** A selectable filter does raise its own channel to 1.5; with
      OneChannelRaised, it raises exactly one. */
  lemma OwnChannelRaised(filter: int)
    requires IsColorFilter(filter)
    ensures ChannelOf(filter).Some? && Multiplier(filter, ChannelOf(filter).value) == "1.5"
  {
  }

  /** NO_FILTER and unknown ids raise no channel. */
  lemma NoChannelRaisedWithoutFilter(filter: int, channel: Channel)
    requires !IsColorFilter(filter)
    ensures Multiplier(filter, channel) == "1"
  {
  }

  /** The parameters never depend on which different filter is current. */
  lemma FilterParamsOverride(newFilter: int, current1: int, current2: int)
    requires newFilter != current1 && newFilter != current2
    ensures FilterParams(newFilter, current1) == FilterParams(newFilter, current2)
  {
  }

  /** Two different selectable filters never produce the same parameters. */
  lemma DistinctFiltersDistinctParams(f1: int, f2: int, current: int)
    requires IsColorFilter(f1) && IsColorFilter(f2) && f1 != f2
    requires f1 != current && f2 != current
    ensures FilterParams(f1, current) != FilterParams(f2, current)
  {
    var p1, p2 := FilterParams(f1, current), FilterParams(f2, current);
    if f1 == RED_FILTER || f2 == RED_FILTER {
      // gamma_r is 1.5 on one side only: position 16 is '.' or ':'
      assert p1[16] != p2[16];
    } else {
      assert p1[26] != p2[26];
    }
  }

  /** Index of the last occurrence of `c` in `s`, or -1. */
  function LastIndexOf(s: string, c: char): (k: int)
    ensures -1 <= k < |s|
    ensures k >= 0 ==> s[k] == c
    ensures forall i :: k < i < |s| ==> s[i] != c
  {
    if s == [] then -1
    else if s[|s| - 1] == c then |s| - 1
    else LastIndexOf(s[..|s| - 1], c)
  }

  /** The last argument of a command line when it is double-quoted: the
      destination the transcoder writes to. */
  function LastQuotedArgument(cmd: string): Option<string> {
    if |cmd| < 2 || cmd[|cmd| - 1] != QUOTE then None
    else
      var body := cmd[..|cmd| - 1];
      var k := LastIndexOf(body, QUOTE);
      if k < 0 then None else Some(body[k + 1..])
  }

  /** A command that ends in a quoted path without quotes gives that path back. */
  lemma LastQuotedArgumentOf(prefix: string, path: string)
    requires QUOTE !in path
    ensures LastQuotedArgument(prefix + Quoted(path)) == Some(path)
  {
    var cmd := prefix + Quoted(path);
    var body := cmd[..|cmd| - 1];
    assert body == prefix + [QUOTE] + path;
    var k := LastIndexOf(body, QUOTE);
    assert body[|prefix|] == QUOTE;
    assert k == |prefix| by {
      forall i | |prefix| < i < |body| ensures body[i] != QUOTE {
        assert body[i] == path[i - |prefix| - 1];
      }
    }
    assert body[k + 1..] == path;
  }

  /** Every command writes exactly to the destination it was built with. */
  lemma CommandsWriteTo(videoPath: string, audioPath: string, params: string, newPath: string)
    requires QUOTE !in newPath
    ensures LastQuotedArgument(SaveCommand(videoPath, newPath)) == Some(newPath)
    ensures LastQuotedArgument(ReplaceAudioCommand(videoPath, audioPath, newPath)) == Some(newPath)
    ensures LastQuotedArgument(FilterCommand(videoPath, params, newPath)) == Some(newPath)
  {
  }
}
