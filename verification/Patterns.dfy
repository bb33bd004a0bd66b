/**
 * Hand-written matchers for the fixed regular expressions of the output
 * parser. Each `...At` function matches its pattern at the start of the text
 * and returns the captures; `Search` tries every start position from the left,
 * as an unanchored regular-expression match does.
 *
 * In these patterns every `\s*`, `\s+`, `\d+` and `[0-9.]+` is followed by a
 * character its own class cannot contain, and every optional group and
 * alternative is told apart by its first characters, so at a given start
 * position the greedy, maximal choice is the only one that can lead to a
 * match; the matchers therefore take maximal runs and never backtrack.
 */
module Patterns {
  import opened Wrappers
  import opened Text

  // ------------------------------------------------------------ primitives

  /** `\s+`; `\s*` is `TrimStart`. */
  function Spaces(s: string): Option<string> {
    if s != [] && IsSpace(s[0]) then Some(TrimStart(s)) else None
  }

  /** `w` spells the lower-case literal `k`, ignoring case. */
  predicate Spelled(w: string, k: string) {
    |w| == |k| && forall i :: 0 <= i < |k| ==> Lower(w[i]) == k[i]
  }

  /** A literal, compared case-insensitively; `k` is given in lower case. */
  function Keyword(s: string, k: string): Option<string> {
    if |k| <= |s| && Spelled(s[..|k|], k) then Some(s[|k|..]) else None
  }

  /** `\s*k` */
  function Labelled(s: string, k: string): Option<string> {
    Keyword(TrimStart(s), k)
  }

  /** `\s+k` */
  function Spaced(s: string, k: string): Option<string> {
    var t :- Spaces(s);
    Keyword(t, k)
  }

  /** A captured group and the text after it. */
  datatype Capture = Capture(text: string, rest: string)

  /** The longest prefix of digits. */
  function DigitRun(s: string): (d: string)
    ensures |d| <= |s| && d == s[..|d|] && AllDigits(d)
    ensures |d| == |s| || !IsDigit(s[|d|])
  {
    if s != [] && IsDigit(s[0]) then [s[0]] + DigitRun(s[1..]) else []
  }

  /** The longest prefix of `[0-9.]`. */
  function DecimalRun(s: string): (d: string)
    ensures |d| <= |s| && d == s[..|d|] && AllDecimalChars(d)
    ensures |d| == |s| || !IsDecimalChar(s[|d|])
  {
    if s != [] && IsDecimalChar(s[0]) then [s[0]] + DecimalRun(s[1..]) else []
  }

  /** `(\d+)` */
  function Digits(s: string): (r: Option<Capture>)
    ensures r.Some? ==> r.value.text != [] && AllDigits(r.value.text) && s == r.value.text + r.value.rest
  {
    var d := DigitRun(s);
    if d == [] then None else Some(Capture(d, s[|d|..]))
  }

  /** `([0-9.]+)` */
  function Decimals(s: string): (r: Option<Capture>)
    ensures r.Some? ==> r.value.text != [] && AllDecimalChars(r.value.text) && s == r.value.text + r.value.rest
  {
    var d := DecimalRun(s);
    if d == [] then None else Some(Capture(d, s[|d|..]))
  }

  /** `\s*=\s*(\d+)` */
  function Assignment(s: string): (r: Option<Capture>)
    ensures r.Some? ==> r.value.text != [] && AllDigits(r.value.text)
  {
    var t :- Labelled(s, "=");
    Digits(TrimStart(t))
  }

  /** The first match of `at` when it is tried at every position from the left. */
  function Search<T>(s: string, at: string -> Option<T>): (r: Option<T>)
    ensures at(s).Some? ==> r == at(s)
    ensures r.Some? ==> exists i :: 0 <= i <= |s| && at(s[i..]) == r && forall j :: 0 <= j < i ==> at(s[j..]).None?
    ensures r.None? ==> forall i :: 0 <= i <= |s| ==> at(s[i..]).None?
    decreases |s|
  {
    if at(s).Some? then
      assert s[0..] == s;
      at(s)
    else if s == [] then None
    else
      var r := Search(s[1..], at);
      assert forall i :: 1 <= i <= |s| ==> s[1..][i - 1..] == s[i..];
      r
  }

  // ---------------------------------------------------------------- patterns

  /** `Packets:\s*Sent\s*=\s*(\d+),\s*Received\s*=\s*(\d+),\s*Lost\s*=\s*(\d+)\s*\((\d+)%\s*loss\)` */
  datatype WinPackets = WinPackets(sent: string, received: string, lost: string, lossPct: string)

  function WinPacketsAt(s: string): (r: Option<WinPackets>)
    ensures r.Some? ==> AllDigits(r.value.sent) && AllDigits(r.value.received)
                        && AllDigits(r.value.lost) && AllDigits(r.value.lossPct)
  {
    var s1 :- Keyword(s, "packets:");
    var s2 :- Labelled(s1, "sent");
    var sent :- Assignment(s2);
    var s3 :- Keyword(sent.rest, ",");
    var s4 :- Labelled(s3, "received");
    var received :- Assignment(s4);
    var s5 :- Keyword(received.rest, ",");
    var s6 :- Labelled(s5, "lost");
    var lost :- Assignment(s6);
    var s7 :- Labelled(lost.rest, "(");
    var pct :- Digits(s7);
    var s8 :- Keyword(pct.rest, "%");
    var s9 :- Labelled(s8, "loss)");
    Some(WinPackets(sent.text, received.text, lost.text, pct.text))
  }

  /** `Minimum\s*=\s*(\d+)\s*ms,\s*Maximum\s*=\s*(\d+)\s*ms,\s*Average\s*=\s*(\d+)\s*ms` */
  datatype WinRtt = WinRtt(minimum: string, maximum: string, average: string)

  function WinRttAt(s: string): (r: Option<WinRtt>)
    ensures r.Some? ==> AllDigits(r.value.minimum) && AllDigits(r.value.maximum) && AllDigits(r.value.average)
  {
    var s1 :- Keyword(s, "minimum");
    var minimum :- Assignment(s1);
    var s2 :- Labelled(minimum.rest, "ms,");
    var s3 :- Labelled(s2, "maximum");
    var maximum :- Assignment(s3);
    var s4 :- Labelled(maximum.rest, "ms,");
    var s5 :- Labelled(s4, "average");
    var average :- Assignment(s5);
    var s6 :- Labelled(average.rest, "ms");
    Some(WinRtt(minimum.text, maximum.text, average.text))
  }

  /**
   * `(\d+)\s+packets\s+transmitted,\s+(\d+)\s+(?:packets\s+)?received,\s+(?:\+?(\d+)\s+errors,\s+)?([0-9.]+)%\s+packet\s+loss`
   */
  datatype UnixPackets = UnixPackets(sent: string, received: string, errors: Option<string>, lossPct: string)

  /** `(?:packets\s+)?` */
  function OptionalPacketsWord(s: string): string {
    match Keyword(s, "packets")
    case Some(t) => (match Spaces(t) case Some(u) => u case None => s)
    case None => s
  }

  /** `(?:\+?(\d+)\s+errors,\s+)?` when it is present. */
  function ErrorsGroup(s: string): Option<Capture> {
    var t := if s != [] && s[0] == '+' then s[1..] else s;
    var n :- Digits(t);
    var u :- Spaced(n.rest, "errors,");
    var w :- Spaces(u);
    Some(Capture(n.text, w))
  }

  /** `(\d+)\s+packets\s+transmitted,\s+(\d+)\s+(?:packets\s+)?received,\s+`: the two counts. */
  function CountsAt(s: string): (r: Option<(Capture, Capture)>)
    ensures r.Some? ==> AllDigits(r.value.0.text) && AllDigits(r.value.1.text)
  {
    var sent :- Digits(s);
    var s1 :- Spaced(sent.rest, "packets");
    var s2 :- Spaced(s1, "transmitted,");
    var s3 :- Spaces(s2);
    var received :- Digits(s3);
    var s4 :- Spaces(received.rest);
    var s5 :- Keyword(OptionalPacketsWord(s4), "received,");
    var s6 :- Spaces(s5);
    Some((sent, Capture(received.text, s6)))
  }

  /** `([0-9.]+)%\s+packet\s+loss`: the loss figure. */
  function LossAt(s: string): (r: Option<Capture>)
    ensures r.Some? ==> AllDecimalChars(r.value.text)
  {
    var pct :- Decimals(s);
    var s1 :- Keyword(pct.rest, "%");
    var s2 :- Spaced(s1, "packet");
    var s3 :- Spaced(s2, "loss");
    Some(Capture(pct.text, s3))
  }

  function UnixPacketsAt(s: string): (r: Option<UnixPackets>)
    ensures r.Some? ==> AllDigits(r.value.sent) && AllDigits(r.value.received) && AllDecimalChars(r.value.lossPct)
  {
    var counts :- CountsAt(s);
    var errors := ErrorsGroup(counts.1.rest);
    var s1 := if errors.Some? then errors.value.rest else counts.1.rest;
    var loss :- LossAt(s1);
    Some(UnixPackets(counts.0.text, counts.1.text, if errors.Some? then Some(errors.value.text) else None, loss.text))
  }

  /** `(?:rtt|round-trip)\s+min/avg/max/(?:mdev|stddev)\s*=\s*([0-9.]+)/([0-9.]+)/([0-9.]+)/([0-9.]+)\s*ms` */
  datatype UnixRtt = UnixRtt(minimum: string, average: string, maximum: string, deviation: string)

  /** `rtt|round-trip` */
  function RttWord(s: string): Option<string> {
    if Keyword(s, "rtt").Some? then Keyword(s, "rtt") else Keyword(s, "round-trip")
  }

  /** `mdev|stddev` */
  function DeviationWord(s: string): Option<string> {
    if Keyword(s, "mdev").Some? then Keyword(s, "mdev") else Keyword(s, "stddev")
  }

  /** `(?:rtt|round-trip)\s+min/avg/max/(?:mdev|stddev)\s*=\s*` */
  function RttHeadAt(s: string): Option<string> {
    var s1 :- RttWord(s);
    var s2 :- Spaced(s1, "min/avg/max/");
    var s3 :- DeviationWord(s2);
    var s4 :- Labelled(s3, "=");
    Some(TrimStart(s4))
  }

  function UnixRttAt(s: string): (r: Option<UnixRtt>)
    ensures r.Some? ==> AllDecimalChars(r.value.minimum) && AllDecimalChars(r.value.average)
                        && AllDecimalChars(r.value.maximum) && AllDecimalChars(r.value.deviation)
  {
    var s1 :- RttHeadAt(s);
    var minimum :- Decimals(s1);
    var s2 :- Keyword(minimum.rest, "/");
    var average :- Decimals(s2);
    var s3 :- Keyword(average.rest, "/");
    var maximum :- Decimals(s3);
    var s4 :- Keyword(maximum.rest, "/");
    var deviation :- Decimals(s4);
    var s5 :- Labelled(deviation.rest, "ms");
    Some(UnixRtt(minimum.text, average.text, maximum.text, deviation.text))
  }

  /** `bytes\s+from\s+` */
  function BytesFrom(s: string): Option<string> {
    var s1 :- Keyword(s, "bytes");
    var s2 :- Spaced(s1, "from");
    Spaces(s2)
  }

  /** `^\s*Reply\s+from\s+` */
  predicate WinReplyAt(line: string) {
    var r := (var s1 :- Labelled(line, "reply"); var s2 :- Spaced(s1, "from"); Spaces(s2));
    r.Some?
  }

  /** `^\s*\d+\s+bytes\s+from\s+` */
  predicate UnixReplyAt(line: string) {
    var r := (var n :- Digits(TrimStart(line)); var s :- Spaces(n.rest); BytesFrom(s));
    r.Some?
  }

  /** `^\s*bytes\s+from\s+` */
  predicate BareReplyAt(line: string) {
    BytesFrom(TrimStart(line)).Some?
  }

  // ------------------------------------------------------------ step lemmas

  predicate AllSpace(w: string) {
    forall i :: 0 <= i < |w| ==> IsSpace(w[i])
  }

  /** `w` is the text of the non-blank literal `k`. */
  predicate Token(w: string, k: string) {
    Spelled(w, k) && k != [] && !IsSpace(k[0])
  }

  lemma PunctuationTokens()
    ensures Token("(", "(") && Token(",", ",") && Token("%", "%") && Token("=", "=") && Token("/", "/")
  {
  }

  lemma WinPacketsTokens()
    ensures Token("Packets:", "packets:") && Token("Sent", "sent") && Token("Received", "received")
    ensures Token("Lost", "lost") && Token("loss)", "loss)")
  {
  }

  lemma WinRttTokens()
    ensures Token("Minimum", "minimum") && Token("ms,", "ms,") && Token("Maximum", "maximum")
    ensures Token("Average", "average") && Token("ms", "ms")
  {
  }

  lemma CountsTokens()
    ensures Token("packets", "packets") && Token("transmitted,", "transmitted,") && Token("received,", "received,")
    ensures Token("errors,", "errors,") && Token("packet", "packet") && Token("loss", "loss")
  {
  }

  lemma RttTokens()
    ensures Token("round-trip", "round-trip") && Token("min/avg/max/", "min/avg/max/") && Token("stddev", "stddev")
    ensures Token("rtt", "rtt") && Token("mdev", "mdev") && Token("ms", "ms")
  {
  }

  lemma ReplyTokens()
    ensures Token("Reply", "reply") && Token("bytes", "bytes") && Token("from", "from")
  {
  }

  lemma KeywordOf(w: string, k: string, r: string)
    requires Token(w, k)
    ensures Keyword(w + r, k) == Some(r)
  {
    assert (w + r)[..|k|] == w;
    assert (w + r)[|k|..] == r;
  }

  lemma KeywordMismatch(s: string, k: string, j: nat)
    requires j < |s| && j < |k| && Lower(s[j]) != k[j]
    ensures Keyword(s, k).None?
  {
    if |k| <= |s| {
      assert s[..|k|][j] == s[j];
    }
  }

  lemma {:induction false} SkipOf(w: string, r: string)
    requires AllSpace(w)
    requires r == [] || !IsSpace(r[0])
    ensures TrimStart(w + r) == r
  {
    if w == [] {
      assert w + r == r;
    } else {
      assert (w + r)[1..] == w[1..] + r;
      SkipOf(w[1..], r);
    }
  }

  lemma SpacesOf(w: string, r: string)
    requires w != [] && AllSpace(w)
    requires r == [] || !IsSpace(r[0])
    ensures Spaces(w + r) == Some(r)
  {
    SkipOf(w, r);
  }

  /** A literal whose first letter is not whitespace does not begin with whitespace. */
  lemma SpelledHead(w: string, k: string, r: string)
    requires Token(w, k)
    ensures !IsSpace((w + r)[0])
  {
    assert (w + r)[0] == w[0];
  }

  lemma LabelledOf(sp: string, w: string, k: string, r: string)
    requires AllSpace(sp) && Token(w, k)
    ensures Labelled(sp + (w + r), k) == Some(r)
  {
    SpelledHead(w, k, r);
    SkipOf(sp, w + r);
    KeywordOf(w, k, r);
  }

  lemma SpacedOf(sp: string, w: string, k: string, r: string)
    requires sp != [] && AllSpace(sp) && Token(w, k)
    ensures Spaced(sp + (w + r), k) == Some(r)
  {
    SpelledHead(w, k, r);
    SpacesOf(sp, w + r);
    KeywordOf(w, k, r);
  }

  lemma {:induction false} DigitRunOf(d: string, r: string)
    requires AllDigits(d)
    requires r == [] || !IsDigit(r[0])
    ensures DigitRun(d + r) == d
  {
    if d == [] {
      assert d + r == r;
    } else {
      assert (d + r)[1..] == d[1..] + r;
      DigitRunOf(d[1..], r);
    }
  }

  lemma DigitsOf(d: string, r: string)
    requires d != [] && AllDigits(d)
    requires r == [] || !IsDigit(r[0])
    ensures Digits(d + r) == Some(Capture(d, r))
  {
    DigitRunOf(d, r);
    assert (d + r)[|d|..] == r;
  }

  lemma {:induction false} DecimalRunOf(d: string, r: string)
    requires AllDecimalChars(d)
    requires r == [] || !IsDecimalChar(r[0])
    ensures DecimalRun(d + r) == d
  {
    if d == [] {
      assert d + r == r;
    } else {
      assert (d + r)[1..] == d[1..] + r;
      DecimalRunOf(d[1..], r);
    }
  }

  lemma DecimalsOf(d: string, r: string)
    requires d != [] && AllDecimalChars(d)
    requires r == [] || !IsDecimalChar(r[0])
    ensures Decimals(d + r) == Some(Capture(d, r))
  {
    DecimalRunOf(d, r);
    assert (d + r)[|d|..] == r;
  }

  /** A number-led text does not begin with whitespace. */
  lemma NumberLed(d: string, r: string)
    requires d != [] && AllDecimalChars(d)
    ensures (d + r)[0] == d[0] && !IsSpace((d + r)[0])
  {
  }

  // ------------------------------------------------- rendered lines match

  predicate IsNumber(d: string) {
    d != [] && AllDigits(d)
  }

  predicate IsDecimal(d: string) {
    d != [] && AllDecimalChars(d)
  }

  /** A non-empty blank run: what `\s+` reads. */
  predicate IsBlank(w: string) {
    w != [] && AllSpace(w)
  }

  /**
   * A blank run and one spelling of a literal, as a summary may write them;
   * `gap` is what `\s*` or `\s+` in front of the literal reads.
   */
  datatype Lead = Lead(gap: string, word: string)

  function LeadText(l: Lead, r: string): string {
    l.gap + (l.word + r)
  }

  /** `\s*k` reads `l`. */
  predicate LeadOk(l: Lead, k: string) {
    AllSpace(l.gap) && Token(l.word, k)
  }

  /** `\s+k` reads `l`. */
  predicate SpacedLeadOk(l: Lead, k: string) {
    l.gap != [] && LeadOk(l, k)
  }

  /** The blank runs on either side of `=` in `\s*=\s*`. */
  datatype Eq = Eq(before: string, after: string)

  predicate EqOk(e: Eq) {
    AllSpace(e.before) && AllSpace(e.after)
  }

  /** `\s*=\s*d`, then `r`. */
  function AssignText(e: Eq, d: string, r: string): string {
    e.before + ("=" + (e.after + (d + r)))
  }

  lemma LeadOf(l: Lead, k: string, r: string)
    requires LeadOk(l, k)
    ensures Labelled(LeadText(l, r), k) == Some(r)
  {
    LabelledOf(l.gap, l.word, k, r);
  }

  lemma SpacedLeadOf(l: Lead, k: string, r: string)
    requires SpacedLeadOk(l, k)
    ensures Spaced(LeadText(l, r), k) == Some(r)
  {
    SpacedOf(l.gap, l.word, k, r);
  }

  /** A blank or a literal that does not begin with `[0-9.]` cannot extend a number in front of it. */
  lemma LeadHead(l: Lead, k: string, r: string)
    requires LeadOk(l, k) && !IsDecimalChar(k[0])
    ensures var t := LeadText(l, r); t != [] && !IsDecimalChar(t[0])
  {
    var t := LeadText(l, r);
    if l.gap != [] {
      assert t[0] == l.gap[0];
    } else {
      assert t == l.word + r;
      assert t[0] == l.word[0] && Lower(l.word[0]) == k[0];
    }
  }

  lemma AssignTextOf(e: Eq, d: string, r: string)
    requires EqOk(e) && IsNumber(d) && (r == [] || !IsDigit(r[0]))
    ensures Assignment(AssignText(e, d, r)) == Some(Capture(d, r))
  {
    PunctuationTokens();
    LabelledOf(e.before, "=", "=", e.after + (d + r));
    NumberLed(d, r);
    SkipOf(e.after, d + r);
    DigitsOf(d, r);
  }

  /**
   * How a Windows packet summary is spelled and spaced: each literal of
   * `Packets:\s*Sent\s*=\s*(\d+),\s*Received\s*=\s*(\d+),\s*Lost\s*=\s*(\d+)\s*\((\d+)%\s*loss\)`
   * in any letter case, each `\s*` any blank run.
   */
  datatype WinPacketsLayout = WinPacketsLayout(
    head: string, sent: Lead, sentEq: Eq, received: Lead, receivedEq: Eq,
    lost: Lead, lostEq: Eq, paren: string, loss: Lead)

  predicate WinPacketsLayoutOk(l: WinPacketsLayout) {
    && Token(l.head, "packets:")
    && LeadOk(l.sent, "sent") && EqOk(l.sentEq)
    && LeadOk(l.received, "received") && EqOk(l.receivedEq)
    && LeadOk(l.lost, "lost") && EqOk(l.lostEq)
    && AllSpace(l.paren) && LeadOk(l.loss, "loss)")
  }

  /** As Windows writes it: `Packets: Sent = 4, Received = 4, Lost = 0 (0% loss)`. */
  const WinPacketsPlain := WinPacketsLayout(
    "Packets:", Lead(" ", "Sent"), Eq(" ", " "), Lead(" ", "Received"), Eq(" ", " "),
    Lead(" ", "Lost"), Eq(" ", " "), " ", Lead(" ", "loss)"))

  /** The Windows packet summary of `c` in layout `l`, then `rest`. */
  function WinPacketsText(c: WinPackets, l: WinPacketsLayout, rest: string): string {
    var tail := l.paren + ("(" + (c.lossPct + ("%" + LeadText(l.loss, rest))));
    l.head + LeadText(l.sent, AssignText(l.sentEq, c.sent, "," + LeadText(l.received,
      AssignText(l.receivedEq, c.received, "," + LeadText(l.lost, AssignText(l.lostEq, c.lost, tail))))))
  }

  /** The steps of `WinPacketsAt`, one fact each. */
  lemma WinPacketsSteps(s: string, s1: string, s2: string, sent: Capture, s3: string, s4: string,
                        received: Capture, s5: string, s6: string, lost: Capture, s7: string, pct: Capture,
                        s8: string, s9: string)
    requires Keyword(s, "packets:") == Some(s1) && Labelled(s1, "sent") == Some(s2) && Assignment(s2) == Some(sent)
    requires Keyword(sent.rest, ",") == Some(s3) && Labelled(s3, "received") == Some(s4)
    requires Assignment(s4) == Some(received) && Keyword(received.rest, ",") == Some(s5)
    requires Labelled(s5, "lost") == Some(s6) && Assignment(s6) == Some(lost) && Labelled(lost.rest, "(") == Some(s7)
    requires Digits(s7) == Some(pct) && Keyword(pct.rest, "%") == Some(s8) && Labelled(s8, "loss)") == Some(s9)
    ensures WinPacketsAt(s) == Some(WinPackets(sent.text, received.text, lost.text, pct.text))
  {
  }

  /** The loss group of the Windows packet summary, read. */
  lemma WinLossOf(pct: string, l: WinPacketsLayout, rest: string)
    requires IsNumber(pct) && WinPacketsLayoutOk(l)
    ensures var u8 := LeadText(l.loss, rest); var u7 := "%" + u8; var tail := LeadText(Lead(l.paren, "("), pct + u7);
      && tail != [] && !IsDigit(tail[0]) && Labelled(tail, "(") == Some(pct + u7)
      && Digits(pct + u7) == Some(Capture(pct, u7)) && Keyword(u7, "%") == Some(u8) && Labelled(u8, "loss)") == Some(rest)
  {
    var u8 := LeadText(l.loss, rest);
    var u7 := "%" + u8;
    var paren := Lead(l.paren, "(");
    PunctuationTokens();
    LeadHead(paren, "(", pct + u7);
    LeadOf(paren, "(", pct + u7);
    DigitsOf(pct, u7);
    KeywordOf("%", "%", u8);
    LeadOf(l.loss, "loss)", rest);
  }

  lemma WinPacketsRoundTrip(c: WinPackets, l: WinPacketsLayout, rest: string)
    requires IsNumber(c.sent) && IsNumber(c.received) && IsNumber(c.lost) && IsNumber(c.lossPct)
    requires WinPacketsLayoutOk(l)
    ensures WinPacketsAt(WinPacketsText(c, l, rest)) == Some(c)
  {
    var u8 := LeadText(l.loss, rest);
    var u7 := "%" + u8;
    var tail := LeadText(Lead(l.paren, "("), c.lossPct + u7);
    var a3 := AssignText(l.lostEq, c.lost, tail);
    var u4 := LeadText(l.lost, a3);
    var a2 := AssignText(l.receivedEq, c.received, "," + u4);
    var u3 := LeadText(l.received, a2);
    var a1 := AssignText(l.sentEq, c.sent, "," + u3);
    var u2 := LeadText(l.sent, a1);
    var s := WinPacketsText(c, l, rest);
    assert s == l.head + u2;
    PunctuationTokens();
    KeywordOf(l.head, "packets:", u2);
    LeadOf(l.sent, "sent", a1);
    AssignTextOf(l.sentEq, c.sent, "," + u3);
    KeywordOf(",", ",", u3);
    LeadOf(l.received, "received", a2);
    AssignTextOf(l.receivedEq, c.received, "," + u4);
    KeywordOf(",", ",", u4);
    LeadOf(l.lost, "lost", a3);
    WinLossOf(c.lossPct, l, rest);
    AssignTextOf(l.lostEq, c.lost, tail);
    WinPacketsSteps(s, u2, a1, Capture(c.sent, "," + u3), u3, a2, Capture(c.received, "," + u4), u4, a3,
                    Capture(c.lost, tail), c.lossPct + u7, Capture(c.lossPct, u7), u8, rest);
  }

  /**
   * How a Windows round-trip summary is spelled and spaced: each literal of
   * `Minimum\s*=\s*(\d+)\s*ms,\s*Maximum\s*=\s*(\d+)\s*ms,\s*Average\s*=\s*(\d+)\s*ms`
   * in any letter case, each `\s*` any blank run.
   */
  datatype WinRttLayout = WinRttLayout(
    head: string, minimumEq: Eq, ms1: Lead, maximum: Lead, maximumEq: Eq, ms2: Lead,
    average: Lead, averageEq: Eq, ms3: Lead)

  predicate WinRttLayoutOk(l: WinRttLayout) {
    && Token(l.head, "minimum") && EqOk(l.minimumEq) && LeadOk(l.ms1, "ms,")
    && LeadOk(l.maximum, "maximum") && EqOk(l.maximumEq) && LeadOk(l.ms2, "ms,")
    && LeadOk(l.average, "average") && EqOk(l.averageEq) && LeadOk(l.ms3, "ms")
  }

  /** As Windows writes it: `Minimum = 1ms, Maximum = 3ms, Average = 2ms`. */
  const WinRttPlain := WinRttLayout(
    "Minimum", Eq(" ", " "), Lead("", "ms,"), Lead(" ", "Maximum"), Eq(" ", " "), Lead("", "ms,"),
    Lead(" ", "Average"), Eq(" ", " "), Lead("", "ms"))

  /** The Windows round-trip summary of `c` in layout `l`, then `rest`. */
  function WinRttText(c: WinRtt, l: WinRttLayout, rest: string): string {
    l.head + AssignText(l.minimumEq, c.minimum, LeadText(l.ms1, LeadText(l.maximum,
      AssignText(l.maximumEq, c.maximum, LeadText(l.ms2, LeadText(l.average,
        AssignText(l.averageEq, c.average, LeadText(l.ms3, rest))))))))
  }

  lemma WinRttRoundTrip(c: WinRtt, l: WinRttLayout, rest: string)
    requires IsNumber(c.minimum) && IsNumber(c.maximum) && IsNumber(c.average)
    requires WinRttLayoutOk(l)
    ensures WinRttAt(WinRttText(c, l, rest)) == Some(c)
  {
    var m3 := LeadText(l.ms3, rest);
    var a3 := AssignText(l.averageEq, c.average, m3);
    var v2 := LeadText(l.average, a3);
    var m2 := LeadText(l.ms2, v2);
    var a2 := AssignText(l.maximumEq, c.maximum, m2);
    var v1 := LeadText(l.maximum, a2);
    var m1 := LeadText(l.ms1, v1);
    var a1 := AssignText(l.minimumEq, c.minimum, m1);
    assert WinRttText(c, l, rest) == l.head + a1;
    KeywordOf(l.head, "minimum", a1);
    LeadHead(l.ms1, "ms,", v1);
    AssignTextOf(l.minimumEq, c.minimum, m1);
    LeadOf(l.ms1, "ms,", v1);
    LeadOf(l.maximum, "maximum", a2);
    LeadHead(l.ms2, "ms,", v2);
    AssignTextOf(l.maximumEq, c.maximum, m2);
    LeadOf(l.ms2, "ms,", v2);
    LeadOf(l.average, "average", a3);
    LeadHead(l.ms3, "ms", rest);
    AssignTextOf(l.averageEq, c.average, m3);
    LeadOf(l.ms3, "ms", rest);
  }

  /**
   * How a Unix packet summary is spelled and spaced: each literal of
   * `(\d+)\s+packets\s+transmitted,\s+(\d+)\s+(?:packets\s+)?received,\s+(?:\+?(\d+)\s+errors,\s+)?([0-9.]+)%\s+packet\s+loss`
   * in any letter case, each `\s+` any non-empty blank run, with or
   * without the optional `packets` and the optional `+`.
   */
  datatype UnixPacketsLayout = UnixPacketsLayout(
    packets: Lead, transmitted: Lead, afterTransmitted: string, packetsWord: Option<Lead>,
    received: Lead, afterReceived: string, plus: bool, errors: Lead, afterErrors: string,
    packet: Lead, loss: Lead)

  predicate UnixPacketsLayoutOk(l: UnixPacketsLayout) {
    && SpacedLeadOk(l.packets, "packets") && SpacedLeadOk(l.transmitted, "transmitted,")
    && IsBlank(l.afterTransmitted)
    && (l.packetsWord.Some? ==> SpacedLeadOk(l.packetsWord.value, "packets"))
    && SpacedLeadOk(l.received, "received,") && IsBlank(l.afterReceived)
    && SpacedLeadOk(l.errors, "errors,") && IsBlank(l.afterErrors)
    && SpacedLeadOk(l.packet, "packet") && SpacedLeadOk(l.loss, "loss")
  }

  /**
   * As the utilities write it: iputils `4 packets transmitted, 4 received, 0% packet loss`,
   * the BSD utility `4 packets transmitted, 4 packets received, 0.0% packet loss`; an
   * error count, when present, is written `+N errors, ` before the loss figure.
   */
  function UnixPacketsPlain(bsd: bool): UnixPacketsLayout {
    UnixPacketsLayout(
      Lead(" ", "packets"), Lead(" ", "transmitted,"), " ", if bsd then Some(Lead(" ", "packets")) else None,
      Lead(" ", "received,"), " ", true, Lead(" ", "errors,"), " ", Lead(" ", "packet"), Lead(" ", "loss"))
  }

  /** The Unix packet summary of `c` in layout `l`, then `rest`. */
  function UnixPacketsText(c: UnixPackets, l: UnixPacketsLayout, rest: string): string {
    CountsText(c.sent, c.received, l, ErrorsText(c.errors, l, LossText(c.lossPct, l, rest)))
  }

  function CountsText(sent: string, received: string, l: UnixPacketsLayout, r: string): string {
    sent + LeadText(l.packets, LeadText(l.transmitted, l.afterTransmitted + (received + ReceivedText(l, r))))
  }

  /** What follows the received count: the optional `packets`, `received,` and the blank after it. */
  function ReceivedText(l: UnixPacketsLayout, r: string): string {
    var tail := LeadText(l.received, l.afterReceived + r);
    match l.packetsWord
    case Some(p) => LeadText(p, tail)
    case None => tail
  }

  function ErrorsText(errors: Option<string>, l: UnixPacketsLayout, r: string): string {
    match errors
    case None => r
    case Some(e) => (if l.plus then "+" else "") + (e + LeadText(l.errors, l.afterErrors + r))
  }

  function LossText(pct: string, l: UnixPacketsLayout, rest: string): string {
    pct + ("%" + LeadText(l.packet, LeadText(l.loss, rest)))
  }

  /** The steps of `CountsAt`, one fact each. */
  lemma CountsSteps(s: string, sent: Capture, s1: string, s2: string, s3: string, received: Capture,
                    s4: string, s5: string, s6: string)
    requires Digits(s) == Some(sent) && Spaced(sent.rest, "packets") == Some(s1)
    requires Spaced(s1, "transmitted,") == Some(s2) && Spaces(s2) == Some(s3) && Digits(s3) == Some(received)
    requires Spaces(received.rest) == Some(s4) && Keyword(OptionalPacketsWord(s4), "received,") == Some(s5)
    requires Spaces(s5) == Some(s6)
    ensures CountsAt(s) == Some((sent, Capture(received.text, s6)))
  {
  }

  /** `received,` and the blank after it, read. */
  lemma ReceivedWordOf(l: UnixPacketsLayout, r: string)
    requires UnixPacketsLayoutOk(l) && (r == [] || !IsSpace(r[0]))
    ensures var v := l.afterReceived + r; var w := l.received.word + v;
      && w != [] && Lower(w[0]) == 'r' && !IsSpace(w[0])
      && Spaces(LeadText(l.received, v)) == Some(w) && Keyword(w, "received,") == Some(v) && Spaces(v) == Some(r)
  {
    var v := l.afterReceived + r;
    var w := l.received.word + v;
    SpacesOf(l.afterReceived, r);
    KeywordOf(l.received.word, "received,", v);
    SpelledHead(l.received.word, "received,", v);
    SpacesOf(l.received.gap, w);
    assert w[0] == l.received.word[0];
  }

  /** What is left of `ReceivedText(l, r)` once the blank after the received count has been read. */
  function AfterReceived(l: UnixPacketsLayout, r: string): string {
    var tail := LeadText(l.received, l.afterReceived + r);
    match l.packetsWord
    case Some(p) => p.word + tail
    case None => l.received.word + (l.afterReceived + r)
  }

  /** The BSD style: `packets` before `received,`. */
  lemma PacketsReceivedOf(l: UnixPacketsLayout, r: string)
    requires UnixPacketsLayoutOk(l) && l.packetsWord.Some? && (r == [] || !IsSpace(r[0]))
    ensures var u := ReceivedText(l, r);
      && u != [] && !IsDecimalChar(u[0]) && Spaces(u) == Some(AfterReceived(l, r))
      && OptionalPacketsWord(AfterReceived(l, r)) == l.received.word + (l.afterReceived + r)
  {
    var p := l.packetsWord.value;
    var tail := LeadText(l.received, l.afterReceived + r);
    ReceivedWordOf(l, r);
    LeadHead(p, "packets", tail);
    SpelledHead(p.word, "packets", tail);
    SpacesOf(p.gap, p.word + tail);
    KeywordOf(p.word, "packets", tail);
  }

  /** The iputils style: `received,` right after the count. */
  lemma PlainReceivedOf(l: UnixPacketsLayout, r: string)
    requires UnixPacketsLayoutOk(l) && l.packetsWord.None? && (r == [] || !IsSpace(r[0]))
    ensures var u := ReceivedText(l, r);
      && u != [] && !IsDecimalChar(u[0]) && Spaces(u) == Some(AfterReceived(l, r))
      && OptionalPacketsWord(AfterReceived(l, r)) == l.received.word + (l.afterReceived + r)
  {
    var w := l.received.word + (l.afterReceived + r);
    ReceivedWordOf(l, r);
    LeadHead(l.received, "received,", l.afterReceived + r);
    KeywordMismatch(w, "packets", 0);
  }

  /** What follows the received count, read: the blank, the optional `packets`, `received,` and the blank after it. */
  lemma ReceivedOf(l: UnixPacketsLayout, r: string)
    requires UnixPacketsLayoutOk(l) && (r == [] || !IsSpace(r[0]))
    ensures var u := ReceivedText(l, r);
      && u != [] && !IsDecimalChar(u[0]) && Spaces(u) == Some(AfterReceived(l, r))
      && Keyword(OptionalPacketsWord(AfterReceived(l, r)), "received,") == Some(l.afterReceived + r)
      && Spaces(l.afterReceived + r) == Some(r)
  {
    ReceivedWordOf(l, r);
    if l.packetsWord.Some? {
      PacketsReceivedOf(l, r);
    } else {
      PlainReceivedOf(l, r);
    }
  }

  lemma CountsOf(sent: string, received: string, l: UnixPacketsLayout, r: string)
    requires IsNumber(sent) && IsNumber(received) && UnixPacketsLayoutOk(l) && (r == [] || !IsSpace(r[0]))
    ensures var m := CountsAt(CountsText(sent, received, l, r));
      m.Some? && m.value.0.text == sent && m.value.1 == Capture(received, r)
  {
    var u1 := ReceivedText(l, r);
    var x := received + u1;
    var u0 := LeadText(l.transmitted, l.afterTransmitted + x);
    var t := LeadText(l.packets, u0);
    LeadHead(l.packets, "packets", u0);
    DigitsOf(sent, t);
    SpacedLeadOf(l.packets, "packets", u0);
    SpacedLeadOf(l.transmitted, "transmitted,", l.afterTransmitted + x);
    NumberLed(received, u1);
    SpacesOf(l.afterTransmitted, x);
    ReceivedOf(l, r);
    DigitsOf(received, u1);
    CountsSteps(sent + t, Capture(sent, t), u0, l.afterTransmitted + x, x, Capture(received, u1),
                AfterReceived(l, r), l.afterReceived + r, r);
  }

  lemma LossOf(pct: string, l: UnixPacketsLayout, rest: string)
    requires IsDecimal(pct) && UnixPacketsLayoutOk(l)
    ensures LossAt(LossText(pct, l, rest)) == Some(Capture(pct, rest))
  {
    var v := LeadText(l.loss, rest);
    var u := LeadText(l.packet, v);
    DecimalsOf(pct, "%" + u);
    PunctuationTokens();
    KeywordOf("%", "%", u);
    SpacedLeadOf(l.packet, "packet", v);
    SpacedLeadOf(l.loss, "loss", rest);
  }

  lemma {:induction false} DigitRunWithin(d: string, r: string)
    requires AllDecimalChars(d) && r != [] && !IsDigit(r[0])
    ensures |DigitRun(d + r)| <= |d|
  {
    if d == [] {
      assert d + r == r;
    } else if IsDigit(d[0]) {
      assert (d + r)[1..] == d[1..] + r;
      DigitRunWithin(d[1..], r);
    }
  }

  /** Without an error count the optional group cannot match: the loss figure is not followed by a blank. */
  lemma NoErrorsGroup(pct: string, r: string)
    requires IsDecimal(pct) && r != [] && !IsDigit(r[0]) && !IsSpace(r[0])
    ensures ErrorsGroup(pct + r).None?
  {
    var s := pct + r;
    assert s[0] == pct[0];
    DigitRunWithin(pct, r);
    var n := DigitRun(s);
    if n != [] {
      assert s[|n|..][0] == s[|n|];
      if |n| < |pct| {
        assert s[|n|] == pct[|n|];
      } else {
        assert s[|n|] == r[0];
      }
    }
  }

  /** The steps of `ErrorsGroup`, one fact each. */
  lemma ErrorsSteps(s: string, t: string, n: Capture, u: string, w: string)
    requires t == (if s != [] && s[0] == '+' then s[1..] else s) && Digits(t) == Some(n)
    requires Spaced(n.rest, "errors,") == Some(u) && Spaces(u) == Some(w)
    ensures ErrorsGroup(s) == Some(Capture(n.text, w))
  {
  }

  /** What an error count gives the matcher: a capture, and no leading blank. */
  lemma ErrorsFacts(e: string, l: UnixPacketsLayout, r: string)
    requires IsNumber(e) && UnixPacketsLayoutOk(l) && r != [] && !IsSpace(r[0])
    ensures var s := ErrorsText(Some(e), l, r);
      ErrorsGroup(s) == Some(Capture(e, r)) && s != [] && !IsSpace(s[0])
  {
    var v := l.afterErrors + r;
    var u := LeadText(l.errors, v);
    var s := ErrorsText(Some(e), l, r);
    var t := e + u;
    if l.plus {
      assert s == "+" + t && s[0] == '+' && s[1..] == t;
    } else {
      assert s == t && s[0] == e[0];
    }
    LeadHead(l.errors, "errors,", v);
    DigitsOf(e, u);
    SpacedLeadOf(l.errors, "errors,", v);
    SpacesOf(l.afterErrors, r);
    ErrorsSteps(s, t, Capture(e, u), v, r);
  }

  /** The steps of `UnixPacketsAt`, one fact each. */
  lemma UnixPacketsSteps(s: string, counts: (Capture, Capture), errors: Option<Capture>, loss: Capture)
    requires CountsAt(s) == Some(counts) && ErrorsGroup(counts.1.rest) == errors
    requires LossAt(if errors.Some? then errors.value.rest else counts.1.rest) == Some(loss)
    ensures UnixPacketsAt(s) == Some(UnixPackets(counts.0.text, counts.1.text,
                                                 if errors.Some? then Some(errors.value.text) else None, loss.text))
  {
  }

  /** What the loss figure gives the matcher: a capture, no error group, and no leading blank. */
  lemma LossFacts(pct: string, l: UnixPacketsLayout, rest: string)
    requires IsDecimal(pct) && UnixPacketsLayoutOk(l)
    ensures var t := LossText(pct, l, rest);
      && LossAt(t) == Some(Capture(pct, rest)) && ErrorsGroup(t).None? && t != [] && !IsSpace(t[0])
  {
    var after := "%" + LeadText(l.packet, LeadText(l.loss, rest));
    assert LossText(pct, l, rest) == pct + after;
    NumberLed(pct, after);
    LossOf(pct, l, rest);
    NoErrorsGroup(pct, after);
  }

  lemma UnixPacketsRoundTrip(c: UnixPackets, l: UnixPacketsLayout, rest: string)
    requires IsNumber(c.sent) && IsNumber(c.received) && IsDecimal(c.lossPct)
    requires c.errors.Some? ==> IsNumber(c.errors.value)
    requires UnixPacketsLayoutOk(l)
    ensures UnixPacketsAt(UnixPacketsText(c, l, rest)) == Some(c)
  {
    var t := LossText(c.lossPct, l, rest);
    var r := ErrorsText(c.errors, l, t);
    LossFacts(c.lossPct, l, rest);
    if c.errors.Some? {
      ErrorsFacts(c.errors.value, l, t);
    }
    CountsOf(c.sent, c.received, l, r);
    var s := UnixPacketsText(c, l, rest);
    var counts := CountsAt(s).value;
    UnixPacketsSteps(s, counts, ErrorsGroup(r), Capture(c.lossPct, rest));
  }

  /**
   * How a Unix round-trip summary is spelled and spaced: each literal of
   * `(?:rtt|round-trip)\s+min/avg/max/(?:mdev|stddev)\s*=\s*([0-9.]+)/([0-9.]+)/([0-9.]+)/([0-9.]+)\s*ms`
   * in any letter case, each blank run any run the pattern admits, and the
   * two alternatives chosen independently of each other.
   */
  datatype UnixRttLayout = UnixRttLayout(head: string, fields: Lead, deviation: string, eq: Eq, ms: Lead)

  predicate UnixRttLayoutOk(l: UnixRttLayout) {
    && (Token(l.head, "rtt") || Token(l.head, "round-trip"))
    && SpacedLeadOk(l.fields, "min/avg/max/")
    && (Token(l.deviation, "mdev") || Token(l.deviation, "stddev"))
    && EqOk(l.eq) && LeadOk(l.ms, "ms")
  }

  /**
   * As the utilities write it: iputils `rtt min/avg/max/mdev = 1.0/2.0/3.0/0.5 ms`,
   * the BSD utility `round-trip min/avg/max/stddev = 1.0/2.0/3.0/0.5 ms`.
   */
  function UnixRttPlain(bsd: bool): UnixRttLayout {
    UnixRttLayout(if bsd then "round-trip" else "rtt", Lead(" ", "min/avg/max/"),
                  if bsd then "stddev" else "mdev", Eq(" ", " "), Lead(" ", "ms"))
  }

  /** The Unix round-trip summary of `c` in layout `l`, then `rest`. */
  function UnixRttText(c: UnixRtt, l: UnixRttLayout, rest: string): string {
    RttHeadText(l, c.minimum + ("/" + (c.average + ("/" + (c.maximum + ("/" + (c.deviation + LeadText(l.ms, rest))))))))
  }

  function RttHeadText(l: UnixRttLayout, r: string): string {
    l.head + LeadText(l.fields, l.deviation + (l.eq.before + ("=" + (l.eq.after + r))))
  }

  /** Either spelling of either alternative is read, whatever follows it. */
  lemma AlternativesOf(l: UnixRttLayout, a: string, b: string)
    requires UnixRttLayoutOk(l)
    ensures RttWord(l.head + a) == Some(a) && DeviationWord(l.deviation + b) == Some(b)
  {
    if Token(l.head, "rtt") {
      KeywordOf(l.head, "rtt", a);
    } else {
      assert (l.head + a)[1] == l.head[1];
      KeywordMismatch(l.head + a, "rtt", 1);
      KeywordOf(l.head, "round-trip", a);
    }
    if Token(l.deviation, "mdev") {
      KeywordOf(l.deviation, "mdev", b);
    } else {
      assert (l.deviation + b)[0] == l.deviation[0];
      KeywordMismatch(l.deviation + b, "mdev", 0);
      KeywordOf(l.deviation, "stddev", b);
    }
  }

  lemma RttHeadOf(l: UnixRttLayout, r: string)
    requires UnixRttLayoutOk(l) && (r == [] || !IsSpace(r[0]))
    ensures RttHeadAt(RttHeadText(l, r)) == Some(r)
  {
    var s3 := l.eq.before + ("=" + (l.eq.after + r));
    var s2 := l.deviation + s3;
    AlternativesOf(l, LeadText(l.fields, s2), s3);
    SpacedLeadOf(l.fields, "min/avg/max/", s2);
    PunctuationTokens();
    LabelledOf(l.eq.before, "=", "=", l.eq.after + r);
    SkipOf(l.eq.after, r);
  }

  /** A decimal followed by `/`. */
  lemma SlashedOf(d: string, r: string)
    requires IsDecimal(d)
    ensures Decimals(d + ("/" + r)) == Some(Capture(d, "/" + r)) && Keyword("/" + r, "/") == Some(r)
  {
    DecimalsOf(d, "/" + r);
    PunctuationTokens();
    KeywordOf("/", "/", r);
  }

  /** The steps of `UnixRttAt`, one fact each. */
  lemma UnixRttSteps(s: string, s1: string, minimum: Capture, s2: string, average: Capture, s3: string,
                     maximum: Capture, s4: string, deviation: Capture, s5: string)
    requires RttHeadAt(s) == Some(s1) && Decimals(s1) == Some(minimum) && Keyword(minimum.rest, "/") == Some(s2)
    requires Decimals(s2) == Some(average) && Keyword(average.rest, "/") == Some(s3)
    requires Decimals(s3) == Some(maximum) && Keyword(maximum.rest, "/") == Some(s4)
    requires Decimals(s4) == Some(deviation) && Labelled(deviation.rest, "ms") == Some(s5)
    ensures UnixRttAt(s) == Some(UnixRtt(minimum.text, average.text, maximum.text, deviation.text))
  {
  }

  lemma UnixRttRoundTrip(c: UnixRtt, l: UnixRttLayout, rest: string)
    requires IsDecimal(c.minimum) && IsDecimal(c.average) && IsDecimal(c.maximum) && IsDecimal(c.deviation)
    requires UnixRttLayoutOk(l)
    ensures UnixRttAt(UnixRttText(c, l, rest)) == Some(c)
  {
    var u6 := LeadText(l.ms, rest);
    var u5 := c.deviation + u6;
    var u3 := c.maximum + ("/" + u5);
    var u1 := c.average + ("/" + u3);
    var t := c.minimum + ("/" + u1);
    NumberLed(c.minimum, "/" + u1);
    RttHeadOf(l, t);
    SlashedOf(c.minimum, u1);
    SlashedOf(c.average, u3);
    SlashedOf(c.maximum, u5);
    LeadHead(l.ms, "ms", rest);
    DecimalsOf(c.deviation, u6);
    LeadOf(l.ms, "ms", rest);
    UnixRttSteps(UnixRttText(c, l, rest), t, Capture(c.minimum, "/" + u1), u1, Capture(c.average, "/" + u3), u3,
                 Capture(c.maximum, "/" + u5), u5, Capture(c.deviation, u6), rest);
  }

  /** The layouts the utilities write are layouts the patterns read. */
  lemma PlainLayouts(bsd: bool)
    ensures WinPacketsLayoutOk(WinPacketsPlain) && WinRttLayoutOk(WinRttPlain)
    ensures UnixPacketsLayoutOk(UnixPacketsPlain(bsd)) && UnixRttLayoutOk(UnixRttPlain(bsd))
    ensures FromLayoutOk(FromPlain) && Token("Reply", "reply") && Token("bytes", "bytes")
  {
    ReplyTokens();
    WinPacketsTokens();
    WinRttTokens();
    CountsTokens();
    RttTokens();
  }

  // ---------------------------------------------------------- indentation

  /** Positions where nothing matches are skipped by the search. */
  lemma {:induction false} SearchPast<T>(w: string, x: string, at: string -> Option<T>)
    requires forall i :: 0 <= i < |w| ==> at((w + x)[i..]).None?
    ensures Search(w + x, at) == Search(x, at)
    decreases |w|
  {
    if w != [] {
      assert (w + x)[0..] == w + x;
      assert (w + x)[1..] == w[1..] + x;
      forall i | 0 <= i < |w[1..]|
        ensures at((w[1..] + x)[i..]).None?
      {
        assert (w[1..] + x)[i..] == (w + x)[i + 1..];
      }
      SearchPast(w[1..], x, at);
    }
  }

  /** No summary pattern can start on a blank. */
  lemma SpaceLed(y: string)
    requires y != [] && IsSpace(y[0])
    ensures WinPacketsAt(y).None? && WinRttAt(y).None? && UnixPacketsAt(y).None? && UnixRttAt(y).None?
  {
    KeywordMismatch(y, "packets:", 0);
    KeywordMismatch(y, "minimum", 0);
    KeywordMismatch(y, "rtt", 0);
    KeywordMismatch(y, "round-trip", 0);
    assert DigitRun(y) == [];
  }

  /** Indentation in front of a summary does not change what the search finds. */
  lemma Indented(indent: string, x: string)
    requires AllSpace(indent)
    ensures Search(indent + x, WinPacketsAt) == Search(x, WinPacketsAt)
    ensures Search(indent + x, WinRttAt) == Search(x, WinRttAt)
    ensures Search(indent + x, UnixPacketsAt) == Search(x, UnixPacketsAt)
    ensures Search(indent + x, UnixRttAt) == Search(x, UnixRttAt)
  {
    forall i | 0 <= i < |indent|
      ensures var y := (indent + x)[i..];
        WinPacketsAt(y).None? && WinRttAt(y).None? && UnixPacketsAt(y).None? && UnixRttAt(y).None?
    {
      assert (indent + x)[i..][0] == indent[i];
      SpaceLed((indent + x)[i..]);
    }
    SearchPast(indent, x, WinPacketsAt);
    SearchPast(indent, x, WinRttAt);
    SearchPast(indent, x, UnixPacketsAt);
    SearchPast(indent, x, UnixRttAt);
  }

  // ----------------------------------------------------------- reply lines

  /** `\s+from\s+`, spelled and spaced in any way the pattern admits. */
  datatype FromLayout = FromLayout(from: Lead, after: string)

  predicate FromLayoutOk(f: FromLayout) {
    SpacedLeadOk(f.from, "from") && IsBlank(f.after)
  }

  const FromPlain := FromLayout(Lead(" ", "from"), " ")

  function FromText(f: FromLayout, rest: string): string {
    LeadText(f.from, f.after + rest)
  }

  /** `Reply from <rest>` in any letter case and spacing, after some indentation. */
  function WinReplyText(indent: string, reply: string, f: FromLayout, rest: string): string {
    indent + (reply + FromText(f, rest))
  }

  /** `bytes from <rest>` in any letter case and spacing. */
  function BytesFromText(bytes: string, f: FromLayout, rest: string): string {
    bytes + FromText(f, rest)
  }

  lemma FromOf(f: FromLayout, rest: string)
    requires FromLayoutOk(f)
    ensures var s := Spaced(FromText(f, rest), "from"); s.Some? && Spaces(s.value).Some?
  {
    SpacedLeadOf(f.from, "from", f.after + rest);
    assert (f.after + rest)[0] == f.after[0];
  }

  lemma WinReplyLine(indent: string, reply: string, f: FromLayout, rest: string)
    requires AllSpace(indent) && Token(reply, "reply") && FromLayoutOk(f)
    ensures WinReplyAt(WinReplyText(indent, reply, f, rest))
  {
    LabelledOf(indent, reply, "reply", FromText(f, rest));
    FromOf(f, rest);
  }

  lemma BytesFromOf(bytes: string, f: FromLayout, rest: string)
    requires Token(bytes, "bytes") && FromLayoutOk(f)
    ensures var t := BytesFromText(bytes, f, rest);
      BytesFrom(t).Some? && !IsSpace(t[0]) && !IsDigit(t[0])
  {
    KeywordOf(bytes, "bytes", FromText(f, rest));
    SpelledHead(bytes, "bytes", FromText(f, rest));
    assert BytesFromText(bytes, f, rest)[0] == bytes[0] && Lower(bytes[0]) == 'b';
    FromOf(f, rest);
  }

  lemma UnixReplyLine(indent: string, n: string, gap: string, bytes: string, f: FromLayout, rest: string)
    requires AllSpace(indent) && IsNumber(n) && IsBlank(gap) && Token(bytes, "bytes") && FromLayoutOk(f)
    ensures UnixReplyAt(indent + (n + (gap + BytesFromText(bytes, f, rest))))
  {
    var u := gap + BytesFromText(bytes, f, rest);
    assert u[0] == gap[0];
    NumberLed(n, u);
    SkipOf(indent, n + u);
    DigitsOf(n, u);
    BytesFromOf(bytes, f, rest);
    SpacesOf(gap, BytesFromText(bytes, f, rest));
  }

  lemma BareReplyLine(indent: string, bytes: string, f: FromLayout, rest: string)
    requires AllSpace(indent) && Token(bytes, "bytes") && FromLayoutOk(f)
    ensures BareReplyAt(indent + BytesFromText(bytes, f, rest))
  {
    BytesFromOf(bytes, f, rest);
    SkipOf(indent, BytesFromText(bytes, f, rest));
  }

  /** A line whose first visible character cannot begin any reply pattern. */
  lemma NotReplyLine(line: string)
    requires var t := TrimStart(line);
      t == [] || (Lower(t[0]) != 'r' && Lower(t[0]) != 'b' && !IsDigit(t[0]))
    ensures !WinReplyAt(line) && !UnixReplyAt(line) && !BareReplyAt(line)
  {
    var t := TrimStart(line);
    if t != [] {
      KeywordMismatch(t, "reply", 0);
      KeywordMismatch(t, "bytes", 0);
    }
  }
}
