/**
 * Splitting a text into lines the way both the parser and the reply counter
 * do it: at every `\r?\n`, keeping empty parts. A carriage return that is not
 * followed by a line feed stays inside its line.
 */
module LineSplit {
  import opened Text

  /** Drops the carriage return of a `\r\n` separator from the end of a part. */
  function Chomp(p: string): (r: string)
    ensures r == p || (p == r + "\r")
  {
    if p != [] && p[|p| - 1] == '\r' then p[..|p| - 1] else p
  }

  /** The parts of `t` between the separators, in order. */
  function Lines(t: string): (ls: seq<string>)
    ensures |ls| >= 1
    ensures forall k :: 0 <= k < |ls| ==> '\n' !in ls[k]
    ensures '\n' !in t ==> ls == [t]
    decreases |t|
  {
    if '\n' !in t then [t]
    else
      var k := FirstIndexOf(t, '\n');
      var head := Chomp(t[..k]);
      assert '\n' !in head by {
        assert head == t[..k][..|head|];
      }
      [head] + Lines(t[k + 1..])
  }

  /** The lines written back, with `sep` between them. */
  function Join(ls: seq<string>, sep: string): string
    requires ls != []
    decreases |ls|
  {
    if |ls| == 1 then ls[0] else ls[0] + sep + Join(ls[1..], sep)
  }

  /** A line that survives a round trip through `Join` with separator `sep`. */
  predicate Joinable(line: string, sep: string) {
    '\n' !in line && (sep == "\n" ==> line == [] || line[|line| - 1] != '\r')
  }

  /** One line and its separator come off the front. */
  lemma LinesCons(line: string, sep: string, rest: string)
    requires (sep == "\n" || sep == "\r\n") && Joinable(line, sep)
    ensures Lines(line + sep + rest) == [line] + Lines(rest)
  {
    var a := if sep == "\n" then line else line + "\r";
    var t := line + sep + rest;
    assert t == a + "\n" + rest;
    assert '\n' !in a by {
      if sep == "\r\n" {
        assert forall i :: 0 <= i < |a| ==> a[i] == '\r' || a[i] == line[i];
      }
    }
    FirstIndexOfAfter(a, '\n', rest);
    assert t[..|a|] == a && t[|a| + 1..] == rest;
    assert Chomp(a) == line;
  }

  /**
   * Splitting undoes joining with `\n` or `\r\n`: the line count and every
   * line come back, empty lines included.
   */
  lemma {:induction false} LinesOfJoin(ls: seq<string>, sep: string)
    requires ls != [] && (sep == "\n" || sep == "\r\n")
    requires forall k :: 0 <= k < |ls| ==> Joinable(ls[k], sep)
    ensures Lines(Join(ls, sep)) == ls
    decreases |ls|
  {
    if |ls| > 1 {
      assert Joinable(ls[0], sep);
      LinesCons(ls[0], sep, Join(ls[1..], sep));
      LinesOfJoin(ls[1..], sep);
    }
  }

  /** A lone carriage return does not end a line. */
  lemma LoneCarriageReturn()
    ensures Lines("a\rb") == ["a\rb"]
  {
  }

  /** Windows line ends: the `\r` goes with the separator. */
  lemma CrLfExample()
    ensures Lines("a\r\n\r\nb") == ["a", "", "b"]
  {
    LinesOfJoin(["a", "", "b"], "\r\n");
    assert Join(["a", "", "b"], "\r\n") == "a\r\n\r\nb";
  }
}
