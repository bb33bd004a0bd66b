/**
 * The summary parser: four extractors that each look for one fixed summary
 * shape, a pass over the lines of the captured output in which later lines
 * overwrite earlier ones, a whole-text fallback for whatever is still
 * missing, and the reply-line counter that drives the progress bar.
 *
 * Captured digit runs are read as unbounded naturals and decimal runs as
 * exact reals.
 */
module OutputParser {
  import opened Wrappers
  import opened Text
  import opened Patterns
  import opened LineSplit

  /** The summary of one run; -1 marks a value that was never seen. */
  datatype PingStats = PingStats(
    hasPacketStats: bool, sent: int, received: int, lost: int, lossPct: real,
    hasRtt: bool, rttMinMs: real, rttAvgMs: real, rttMaxMs: real, rttMdevMs: real)

  const Unknown := PingStats(false, -1, -1, -1, -1.0, false, -1.0, -1.0, -1.0, -1.0)

  datatype PacketPart = PacketPart(has: bool, sent: int, received: int, lost: int, lossPct: real)

  datatype RttPart = RttPart(has: bool, minimum: real, average: real, maximum: real, deviation: real)

  /** The packet counters of a summary. */
  function Packets(s: PingStats): PacketPart {
    PacketPart(s.hasPacketStats, s.sent, s.received, s.lost, s.lossPct)
  }

  /** The round-trip times of a summary. */
  function Rtt(s: PingStats): RttPart {
    RttPart(s.hasRtt, s.rttMinMs, s.rttAvgMs, s.rttMaxMs, s.rttMdevMs)
  }

  // --------------------------------------------------------------- extractors

  /** What a Windows packet match writes: the four counters, from captures 1 to 4. */
  function WindowsPacketsFrom(m: Option<WinPackets>, s: PingStats): (r: PingStats)
    ensures Rtt(r) == Rtt(s)
    ensures m.None? ==> r == s
    ensures m.Some? ==> r.hasPacketStats && r.sent >= 0 && r.received >= 0 && r.lost >= 0 && r.lossPct >= 0.0
  {
    match m
    case None => s
    case Some(c) =>
      s.(hasPacketStats := true, sent := ToInt(c.sent), received := ToInt(c.received), lost := ToInt(c.lost),
         lossPct := ToReal(c.lossPct))
  }

  /** What a Windows round-trip match writes: minimum, maximum, average in textual order; no deviation. */
  function WindowsRttFrom(m: Option<WinRtt>, s: PingStats): (r: PingStats)
    ensures Packets(r) == Packets(s)
    ensures m.None? ==> r == s
    ensures m.Some? ==> r.hasRtt && r.rttMdevMs == -1.0 && r.rttMinMs >= 0.0 && r.rttAvgMs >= 0.0 && r.rttMaxMs >= 0.0
  {
    match m
    case None => s
    case Some(c) =>
      s.(hasRtt := true, rttMinMs := ToReal(c.minimum), rttMaxMs := ToReal(c.maximum),
         rttAvgMs := ToReal(c.average), rttMdevMs := -1.0)
  }

  /**
   * What a Unix packet match writes: the two counts and the loss figure; the
   * error count is dropped and the lost count is derived, never read.
   */
  function UnixPacketsFrom(m: Option<UnixPackets>, s: PingStats): (r: PingStats)
    ensures Rtt(r) == Rtt(s)
    ensures m.None? ==> r == s
    ensures m.Some? ==>
      r.hasPacketStats && r.sent >= 0 && r.received >= 0 && r.lost == r.sent - r.received && r.lossPct >= 0.0
  {
    match m
    case None => s
    case Some(c) =>
      var sent, received := ToInt(c.sent), ToInt(c.received);
      var lost := if sent >= 0 && received >= 0 then sent - received else s.lost;
      s.(hasPacketStats := true, sent := sent, received := received, lost := lost, lossPct := ToReal(c.lossPct))
  }

  /** What a Unix round-trip match writes: minimum, average, maximum, deviation. */
  function UnixRttFrom(m: Option<UnixRtt>, s: PingStats): (r: PingStats)
    ensures Packets(r) == Packets(s)
    ensures m.None? ==> r == s
    ensures m.Some? ==> r.hasRtt && r.rttMinMs >= 0.0 && r.rttAvgMs >= 0.0 && r.rttMaxMs >= 0.0 && r.rttMdevMs >= 0.0
  {
    match m
    case None => s
    case Some(c) =>
      s.(hasRtt := true, rttMinMs := ToReal(c.minimum), rttAvgMs := ToReal(c.average),
         rttMaxMs := ToReal(c.maximum), rttMdevMs := ToReal(c.deviation))
  }

  function WindowsPackets(t: string, s: PingStats): PingStats {
    WindowsPacketsFrom(Search(t, WinPacketsAt), s)
  }

  function WindowsRtt(t: string, s: PingStats): PingStats {
    WindowsRttFrom(Search(t, WinRttAt), s)
  }

  function UnixPacketsOf(t: string, s: PingStats): PingStats {
    UnixPacketsFrom(Search(t, UnixPacketsAt), s)
  }

  function UnixRttOf(t: string, s: PingStats): PingStats {
    UnixRttFrom(Search(t, UnixRttAt), s)
  }

  // -------------------------------------------------- extractors on summaries

  /** The Windows packet figures a match on rendered numbers writes. */
  lemma WindowsPacketsValues(sent: nat, received: nat, lost: nat, pct: nat, s: PingStats)
    ensures var c := WinPackets(NatToString(sent), NatToString(received), NatToString(lost), NatToString(pct));
      WindowsPacketsFrom(Some(c), s)
        == s.(hasPacketStats := true, sent := sent, received := received, lost := lost, lossPct := pct as real)
  {
    DigitsValueOfNatToString(sent);
    DigitsValueOfNatToString(received);
    DigitsValueOfNatToString(lost);
    DigitsValueOfNatToString(pct);
    DigitsAsReal(NatToString(pct));
  }

  /** An indented Windows packet summary sets exactly its four numbers. */
  lemma WindowsPacketsLine(indent: string, sent: nat, received: nat, lost: nat, pct: nat, l: WinPacketsLayout,
                           rest: string, s: PingStats)
    requires AllSpace(indent) && WinPacketsLayoutOk(l)
    ensures var c := WinPackets(NatToString(sent), NatToString(received), NatToString(lost), NatToString(pct));
      WindowsPackets(indent + WinPacketsText(c, l, rest), s)
        == s.(hasPacketStats := true, sent := sent, received := received, lost := lost, lossPct := pct as real)
  {
    var c := WinPackets(NatToString(sent), NatToString(received), NatToString(lost), NatToString(pct));
    Indented(indent, WinPacketsText(c, l, rest));
    WinPacketsRoundTrip(c, l, rest);
    WindowsPacketsValues(sent, received, lost, pct, s);
  }

  lemma WindowsRttValues(minimum: nat, maximum: nat, average: nat, s: PingStats)
    ensures var c := WinRtt(NatToString(minimum), NatToString(maximum), NatToString(average));
      WindowsRttFrom(Some(c), s)
        == s.(hasRtt := true, rttMinMs := minimum as real, rttMaxMs := maximum as real,
              rttAvgMs := average as real, rttMdevMs := -1.0)
  {
    DigitsValueOfNatToString(minimum);
    DigitsValueOfNatToString(maximum);
    DigitsValueOfNatToString(average);
    DigitsAsReal(NatToString(minimum));
    DigitsAsReal(NatToString(maximum));
    DigitsAsReal(NatToString(average));
  }

  /** An indented Windows round-trip summary sets its three times and clears the deviation. */
  lemma WindowsRttLine(indent: string, minimum: nat, maximum: nat, average: nat, l: WinRttLayout, rest: string,
                       s: PingStats)
    requires AllSpace(indent) && WinRttLayoutOk(l)
    ensures var c := WinRtt(NatToString(minimum), NatToString(maximum), NatToString(average));
      WindowsRtt(indent + WinRttText(c, l, rest), s)
        == s.(hasRtt := true, rttMinMs := minimum as real, rttMaxMs := maximum as real,
              rttAvgMs := average as real, rttMdevMs := -1.0)
  {
    var c := WinRtt(NatToString(minimum), NatToString(maximum), NatToString(average));
    Indented(indent, WinRttText(c, l, rest));
    WinRttRoundTrip(c, l, rest);
    WindowsRttValues(minimum, maximum, average, s);
  }

  /** The rendered counts of a Unix packet summary. */
  function UnixPacketsOfNumbers(sent: nat, received: nat, errors: Option<nat>, pct: nat): Patterns.UnixPackets {
    Patterns.UnixPackets(NatToString(sent), NatToString(received),
                         if errors.Some? then Some(NatToString(errors.value)) else None, NatToString(pct))
  }

  lemma UnixPacketsValues(sent: nat, received: nat, errors: Option<nat>, pct: nat, s: PingStats)
    ensures UnixPacketsFrom(Some(UnixPacketsOfNumbers(sent, received, errors, pct)), s)
      == s.(hasPacketStats := true, sent := sent, received := received, lost := sent - received, lossPct := pct as real)
  {
    DigitsValueOfNatToString(sent);
    DigitsValueOfNatToString(received);
    DigitsValueOfNatToString(pct);
    DigitsAsReal(NatToString(pct));
  }

  /**
   * A Unix packet summary in either style sets the counts and the loss figure,
   * ignores the error count and derives lost = sent - received, which is
   * negative when duplicates push the received count above the sent count.
   */
  lemma UnixPacketsLine(sent: nat, received: nat, errors: Option<nat>, pct: nat, l: UnixPacketsLayout, rest: string,
                        s: PingStats)
    requires UnixPacketsLayoutOk(l)
    ensures UnixPacketsOf(UnixPacketsText(UnixPacketsOfNumbers(sent, received, errors, pct), l, rest), s)
      == s.(hasPacketStats := true, sent := sent, received := received, lost := sent - received, lossPct := pct as real)
  {
    var c := UnixPacketsOfNumbers(sent, received, errors, pct);
    assert IsNumber(c.sent) && IsNumber(c.received) && IsDecimal(c.lossPct);
    UnixPacketsRoundTrip(c, l, rest);
    UnixPacketsValues(sent, received, errors, pct, s);
  }

  /** The rendered figures of a Unix round-trip summary, three decimals each. */
  function UnixRttOfThousandths(minimum: nat, average: nat, maximum: nat, deviation: nat): Patterns.UnixRtt {
    Patterns.UnixRtt(FixedThousandths(minimum), FixedThousandths(average), FixedThousandths(maximum),
                     FixedThousandths(deviation))
  }

  lemma UnixRttValues(minimum: nat, average: nat, maximum: nat, deviation: nat, s: PingStats)
    ensures UnixRttFrom(Some(UnixRttOfThousandths(minimum, average, maximum, deviation)), s)
      == s.(hasRtt := true, rttMinMs := minimum as real / 1000.0, rttAvgMs := average as real / 1000.0,
            rttMaxMs := maximum as real / 1000.0, rttMdevMs := deviation as real / 1000.0)
  {
    ToRealOfThousandths(minimum);
    ToRealOfThousandths(average);
    ToRealOfThousandths(maximum);
    ToRealOfThousandths(deviation);
  }

  /** A Unix round-trip summary with three-decimal figures sets all four times, in thousandths. */
  lemma UnixRttLine(minimum: nat, average: nat, maximum: nat, deviation: nat, l: UnixRttLayout, rest: string,
                    s: PingStats)
    requires UnixRttLayoutOk(l)
    ensures UnixRttOf(UnixRttText(UnixRttOfThousandths(minimum, average, maximum, deviation), l, rest), s)
      == s.(hasRtt := true, rttMinMs := minimum as real / 1000.0, rttAvgMs := average as real / 1000.0,
            rttMaxMs := maximum as real / 1000.0, rttMdevMs := deviation as real / 1000.0)
  {
    var c := UnixRttOfThousandths(minimum, average, maximum, deviation);
    FixedThousandthsValue(minimum);
    FixedThousandthsValue(average);
    FixedThousandthsValue(maximum);
    FixedThousandthsValue(deviation);
    UnixRttRoundTrip(c, l, rest);
    UnixRttValues(minimum, average, maximum, deviation, s);
  }

  // ------------------------------------------------------------------- parse

  /** What the four extractors find in one text. */
  datatype LineMatches = LineMatches(
    winPackets: Option<WinPackets>, winRtt: Option<WinRtt>,
    unixPackets: Option<Patterns.UnixPackets>, unixRtt: Option<Patterns.UnixRtt>)

  function Matches(t: string): LineMatches {
    LineMatches(Search(t, WinPacketsAt), Search(t, WinRttAt), Search(t, UnixPacketsAt), Search(t, UnixRttAt))
  }

  predicate PacketSummary(m: LineMatches) {
    m.winPackets.Some? || m.unixPackets.Some?
  }

  predicate RttSummary(m: LineMatches) {
    m.winRtt.Some? || m.unixRtt.Some?
  }

  /** The four extractors in their fixed order: Windows packets, Windows times, Unix packets, Unix times. */
  function Update(m: LineMatches, s: PingStats): (r: PingStats)
    ensures !PacketSummary(m) ==> Packets(r) == Packets(s)
    ensures !RttSummary(m) ==> Rtt(r) == Rtt(s)
    ensures PacketSummary(m) ==> r.hasPacketStats
    ensures RttSummary(m) ==> r.hasRtt
  {
    UnixRttFrom(m.unixRtt, UnixPacketsFrom(m.unixPackets, WindowsRttFrom(m.winRtt, WindowsPacketsFrom(m.winPackets, s))))
  }

  /** The accumulator after the extractors have run over `lines` in order. */
  function LinePass(lines: seq<string>, s: PingStats): PingStats
    decreases |lines|
  {
    if lines == [] then s else Update(Matches(lines[|lines| - 1]), LinePass(lines[..|lines| - 1], s))
  }

  /** The round-trip extractors read nothing of the summary but its round-trip part. */
  lemma RttRetryReadsRtt(t: string, a: PingStats, b: PingStats)
    requires Rtt(a) == Rtt(b)
    ensures Rtt(UnixRttOf(t, WindowsRtt(t, a))) == Rtt(UnixRttOf(t, WindowsRtt(t, b)))
  {
  }

  /** The whole-text retry for each category the line pass left unset. */
  function Fallback(t: string, s: PingStats): (r: PingStats)
    ensures s.hasPacketStats ==> Packets(r) == Packets(s)
    ensures s.hasRtt ==> Rtt(r) == Rtt(s)
    ensures !s.hasPacketStats ==> Packets(r) == Packets(UnixPacketsOf(t, WindowsPackets(t, s)))
    ensures !s.hasRtt ==> Rtt(r) == Rtt(UnixRttOf(t, WindowsRtt(t, s)))
  {
    var s1 := if !s.hasPacketStats then UnixPacketsOf(t, WindowsPackets(t, s)) else s;
    assert Rtt(s1) == Rtt(s);
    RttRetryReadsRtt(t, s1, s);
    if !s1.hasRtt then UnixRttOf(t, WindowsRtt(t, s1)) else s1
  }

  /** What the parser reports for a captured output. */
  function ParsedStats(fullText: string): PingStats {
    Fallback(fullText, LinePass(Lines(fullText), Unknown))
  }

  method Parse(fullText: string) returns (s: PingStats)
    ensures s == ParsedStats(fullText)
  {
    s := Unknown;
    var lines := Lines(fullText);
    var i := 0;
    while i < |lines|
      invariant 0 <= i <= |lines|
      invariant s == LinePass(lines[..i], Unknown)
    {
      assert lines[..i + 1][..i] == lines[..i];
      s := WindowsPackets(lines[i], s);
      s := WindowsRtt(lines[i], s);
      s := UnixPacketsOf(lines[i], s);
      s := UnixRttOf(lines[i], s);
      i := i + 1;
    }
    assert lines[..i] == lines;
    if !s.hasPacketStats {
      s := WindowsPackets(fullText, s);
      s := UnixPacketsOf(fullText, s);
    }
    if !s.hasRtt {
      s := WindowsRtt(fullText, s);
      s := UnixRttOf(fullText, s);
    }
  }

  // ------------------------------------------------------- what parse means

  /** The line pass as a replay of what was found on each line. */
  function Replay(ms: seq<LineMatches>, s: PingStats): PingStats
    decreases |ms|
  {
    if ms == [] then s else Update(ms[|ms| - 1], Replay(ms[..|ms| - 1], s))
  }

  function MatchesOf(lines: seq<string>): (ms: seq<LineMatches>)
    ensures |ms| == |lines| && forall k :: 0 <= k < |lines| ==> ms[k] == Matches(lines[k])
  {
    seq(|lines|, k requires 0 <= k < |lines| => Matches(lines[k]))
  }

  lemma {:induction false} LinePassIsReplay(lines: seq<string>, s: PingStats)
    ensures LinePass(lines, s) == Replay(MatchesOf(lines), s)
    decreases |lines|
  {
    if lines != [] {
      var init := lines[..|lines| - 1];
      LinePassIsReplay(init, s);
      assert MatchesOf(lines)[..|lines| - 1] == MatchesOf(init);
    }
  }

  lemma {:induction false} ReplayAppend(a: seq<LineMatches>, b: seq<LineMatches>, s: PingStats)
    ensures Replay(a + b, s) == Replay(b, Replay(a, s))
    decreases |b|
  {
    if b == [] {
      assert a + b == a;
    } else {
      var b' := b[..|b| - 1];
      assert (a + b)[..|a + b| - 1] == a + b';
      ReplayAppend(a, b', s);
    }
  }

  /** Lines without a packet summary leave the packet counters alone. */
  lemma {:induction false} PacketsUntouched(ms: seq<LineMatches>, s: PingStats)
    requires forall k :: 0 <= k < |ms| ==> !PacketSummary(ms[k])
    ensures Packets(Replay(ms, s)) == Packets(s)
    decreases |ms|
  {
    if ms != [] {
      PacketsUntouched(ms[..|ms| - 1], s);
    }
  }

  /** Lines without a round-trip summary leave the round-trip times alone. */
  lemma {:induction false} RttUntouched(ms: seq<LineMatches>, s: PingStats)
    requires forall k :: 0 <= k < |ms| ==> !RttSummary(ms[k])
    ensures Rtt(Replay(ms, s)) == Rtt(s)
    decreases |ms|
  {
    if ms != [] {
      RttUntouched(ms[..|ms| - 1], s);
    }
  }

  /** A packet summary sets every counter, whatever came before it. */
  lemma PacketSummaryOverwrites(m: LineMatches, s: PingStats, s': PingStats)
    requires PacketSummary(m)
    ensures Packets(Update(m, s)) == Packets(Update(m, s'))
  {
  }

  /** A round-trip summary sets every time, whatever came before it. */
  lemma RttSummaryOverwrites(m: LineMatches, s: PingStats, s': PingStats)
    requires RttSummary(m)
    ensures Rtt(Update(m, s)) == Rtt(Update(m, s'))
  {
  }

  lemma LastPacketMatch(ms: seq<LineMatches>, k: nat, s: PingStats)
    requires k < |ms| && PacketSummary(ms[k])
    requires forall j :: k < j < |ms| ==> !PacketSummary(ms[j])
    ensures Packets(Replay(ms, s)) == Packets(Update(ms[k], Unknown))
  {
    var later := ms[k + 1..];
    assert ms == ms[..k + 1] + later;
    assert ms[..k + 1][..k] == ms[..k];
    ReplayAppend(ms[..k + 1], later, s);
    PacketsUntouched(later, Replay(ms[..k + 1], s));
    PacketSummaryOverwrites(ms[k], Replay(ms[..k], s), Unknown);
  }

  lemma LastRttMatch(ms: seq<LineMatches>, k: nat, s: PingStats)
    requires k < |ms| && RttSummary(ms[k])
    requires forall j :: k < j < |ms| ==> !RttSummary(ms[j])
    ensures Rtt(Replay(ms, s)) == Rtt(Update(ms[k], Unknown))
  {
    var later := ms[k + 1..];
    assert ms == ms[..k + 1] + later;
    assert ms[..k + 1][..k] == ms[..k];
    ReplayAppend(ms[..k + 1], later, s);
    RttUntouched(later, Replay(ms[..k + 1], s));
    RttSummaryOverwrites(ms[k], Replay(ms[..k], s), Unknown);
  }

  predicate HasPacketSummary(line: string) {
    PacketSummary(Matches(line))
  }

  predicate HasRttSummary(line: string) {
    RttSummary(Matches(line))
  }

  /**
   * The last line with a packet summary decides the packet counters: they are
   * what that line alone would give.
   */
  lemma LastPacketLine(lines: seq<string>, k: nat, s: PingStats)
    requires k < |lines| && HasPacketSummary(lines[k])
    requires forall j :: k < j < |lines| ==> !HasPacketSummary(lines[j])
    ensures Packets(LinePass(lines, s)) == Packets(Update(Matches(lines[k]), Unknown))
  {
    LinePassIsReplay(lines, s);
    LastPacketMatch(MatchesOf(lines), k, s);
  }

  /** The last line with a round-trip summary decides the round-trip times. */
  lemma LastRttLine(lines: seq<string>, k: nat, s: PingStats)
    requires k < |lines| && HasRttSummary(lines[k])
    requires forall j :: k < j < |lines| ==> !HasRttSummary(lines[j])
    ensures Rtt(LinePass(lines, s)) == Rtt(Update(Matches(lines[k]), Unknown))
  {
    LinePassIsReplay(lines, s);
    LastRttMatch(MatchesOf(lines), k, s);
  }

  /** On one line, a Unix packet summary wins over a Windows one. */
  lemma UnixPacketsWin(m: LineMatches, s: PingStats)
    requires m.unixPackets.Some?
    ensures Packets(Update(m, s)) == Packets(UnixPacketsFrom(m.unixPackets, s))
  {
  }

  /** On one line, a Unix round-trip summary wins over a Windows one. */
  lemma UnixRttWins(m: LineMatches, s: PingStats)
    requires m.unixRtt.Some?
    ensures Rtt(Update(m, s)) == Rtt(UnixRttFrom(m.unixRtt, s))
  {
  }

  /** Output in which nothing matches, line by line or as a whole, yields the all-unknown summary. */
  lemma NothingMatches(fullText: string)
    requires forall k :: 0 <= k < |Lines(fullText)| ==>
      !HasPacketSummary(Lines(fullText)[k]) && !HasRttSummary(Lines(fullText)[k])
    requires !HasPacketSummary(fullText) && !HasRttSummary(fullText)
    ensures ParsedStats(fullText) == Unknown
  {
    var lines := Lines(fullText);
    LinePassIsReplay(lines, Unknown);
    PacketsUntouched(MatchesOf(lines), Unknown);
    RttUntouched(MatchesOf(lines), Unknown);
  }

  // ------------------------------------------------------------ reply lines

  /** A line that looks like one echo reply. */
  predicate IsReplyLine(line: string) {
    WinReplyAt(line) || UnixReplyAt(line) || BareReplyAt(line)
  }

  /** The number of lines among `lines` that satisfy `p`. */
  function CountWhere(lines: seq<string>, p: string -> bool): (n: nat)
    ensures n <= |lines|
    decreases |lines|
  {
    if lines == [] then 0
    else CountWhere(lines[..|lines| - 1], p) + (if p(lines[|lines| - 1]) then 1 else 0)
  }

  function ReplyCount(chunk: string): nat {
    CountWhere(Lines(chunk), IsReplyLine)
  }

  method CountRepliesInChunk(chunk: string) returns (count: int)
    ensures count == ReplyCount(chunk)
    ensures 0 <= count <= |Lines(chunk)|
  {
    count := 0;
    var lines := Lines(chunk);
    var i := 0;
    while i < |lines|
      invariant 0 <= i <= |lines|
      invariant count == CountWhere(lines[..i], IsReplyLine)
    {
      assert lines[..i + 1][..i] == lines[..i];
      if WinReplyAt(lines[i]) || UnixReplyAt(lines[i]) || BareReplyAt(lines[i]) {
        count := count + 1;
      }
      i := i + 1;
    }
    assert lines[..i] == lines;
  }

  /** Every line is counted exactly when every line satisfies `p`. */
  lemma {:induction false} CountWhereAll(lines: seq<string>, p: string -> bool)
    ensures CountWhere(lines, p) == |lines| <==> forall k :: 0 <= k < |lines| ==> p(lines[k])
    decreases |lines|
  {
    if lines != [] {
      var init := lines[..|lines| - 1];
      CountWhereAll(init, p);
      assert forall k :: 0 <= k < |init| ==> init[k] == lines[k];
    }
  }

  /** Nothing is counted exactly when no line satisfies `p`. */
  lemma {:induction false} CountWhereNone(lines: seq<string>, p: string -> bool)
    ensures CountWhere(lines, p) == 0 <==> forall k :: 0 <= k < |lines| ==> !p(lines[k])
    decreases |lines|
  {
    if lines != [] {
      var init := lines[..|lines| - 1];
      CountWhereNone(init, p);
      assert forall k :: 0 <= k < |init| ==> init[k] == lines[k];
    }
  }

  /** A chunk made of reply lines, with Windows or Unix line ends, counts each of them once. */
  lemma ReplyChunk(replies: seq<string>, sep: string)
    requires replies != [] && (sep == "\n" || sep == "\r\n")
    requires forall k :: 0 <= k < |replies| ==> Joinable(replies[k], sep) && IsReplyLine(replies[k])
    ensures ReplyCount(Join(replies, sep)) == |replies|
  {
    LinesOfJoin(replies, sep);
    CountWhereAll(replies, IsReplyLine);
  }

  /** A chunk with no reply line in it does not move the counter. */
  lemma NoReplyChunk(chunk: string)
    requires forall k :: 0 <= k < |Lines(chunk)| ==> !IsReplyLine(Lines(chunk)[k])
    ensures ReplyCount(chunk) == 0
  {
    CountWhereNone(Lines(chunk), IsReplyLine);
  }
}
