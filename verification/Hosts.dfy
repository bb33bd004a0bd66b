/**
 * The host list typed by the user: names and addresses separated by any mix
 * of whitespace, commas and semicolons. Every token is kept, in input order,
 * duplicates included.
 */
module Hosts {
  import opened Text

  /** Line breaks, commas and semicolons are turned into blanks, so all of them separate hosts. */
  predicate IsSeparator(c: char) {
    IsSpace(c) || c == ',' || c == ';'
  }

  predicate AllSeparators(s: string) {
    forall i :: 0 <= i < |s| ==> IsSeparator(s[i])
  }

  /** A token of the host list: non-empty, with no separator in it. */
  predicate IsHost(h: string) {
    h != [] && forall i :: 0 <= i < |h| ==> !IsSeparator(h[i])
  }

  function SkipSeparators(s: string): (r: string)
    ensures |r| <= |s|
    ensures r == [] || !IsSeparator(r[0])
  {
    if s != [] && IsSeparator(s[0]) then SkipSeparators(s[1..]) else s
  }

  /** The longest prefix without a separator. */
  function TokenRun(s: string): (t: string)
    ensures |t| <= |s| && t == s[..|t|]
    ensures forall i :: 0 <= i < |t| ==> !IsSeparator(t[i])
    ensures |t| < |s| ==> IsSeparator(s[|t|])
  {
    if s != [] && !IsSeparator(s[0]) then [s[0]] + TokenRun(s[1..]) else []
  }

  /** The hosts of `input`, in order. */
  function SplitHosts(input: string): (hosts: seq<string>)
    ensures forall k :: 0 <= k < |hosts| ==> IsHost(hosts[k])
    decreases |input|
  {
    var t := SkipSeparators(input);
    if t == [] then []
    else
      var token := TokenRun(t);
      [token] + SplitHosts(t[|token|..])
  }

  /** The hosts written back with a separator run between neighbours. */
  function JoinHosts(hosts: seq<string>, sep: string): string
    decreases |hosts|
  {
    if hosts == [] then "" else if |hosts| == 1 then hosts[0] else hosts[0] + sep + JoinHosts(hosts[1..], sep)
  }

  /** Leading separators are ignored. */
  lemma {:induction false} SkipOfSeparators(sep: string, rest: string)
    requires AllSeparators(sep)
    ensures SkipSeparators(sep + rest) == SkipSeparators(rest)
    decreases |sep|
  {
    if sep != [] {
      assert IsSeparator((sep + rest)[0]) by {
        assert (sep + rest)[0] == sep[0];
      }
      assert (sep + rest)[1..] == sep[1..] + rest;
      assert AllSeparators(sep[1..]) by {
        assert forall i :: 0 <= i < |sep| - 1 ==> sep[1..][i] == sep[i + 1];
      }
      SkipOfSeparators(sep[1..], rest);
    } else {
      assert sep + rest == rest;
    }
  }

  lemma {:induction false} TokenRunOf(h: string, rest: string)
    requires forall i :: 0 <= i < |h| ==> !IsSeparator(h[i])
    requires rest == [] || IsSeparator(rest[0])
    ensures TokenRun(h + rest) == h
    decreases |h|
  {
    if h == [] {
      assert h + rest == rest;
    } else {
      assert (h + rest)[0] == h[0];
      assert (h + rest)[1..] == h[1..] + rest;
      TokenRunOf(h[1..], rest);
    }
  }

  lemma SeparatorsFirst(sep: string, rest: string)
    requires AllSeparators(sep)
    ensures SplitHosts(sep + rest) == SplitHosts(rest)
  {
    SkipOfSeparators(sep, rest);
  }

  /** A host followed by a separator (or by nothing) is the first token. */
  lemma HostFirst(h: string, rest: string)
    requires IsHost(h)
    requires rest == [] || IsSeparator(rest[0])
    ensures SplitHosts(h + rest) == [h] + SplitHosts(rest)
  {
    var t := h + rest;
    assert t[0] == h[0];
    assert SkipSeparators(t) == t;
    TokenRunOf(h, rest);
    assert t[|h|..] == rest;
  }

  /** One host and the separators after it come off the front. */
  lemma SplitCons(h: string, sep: string, rest: string)
    requires IsHost(h) && AllSeparators(sep)
    requires sep != [] || rest == []
    ensures SplitHosts(h + sep + rest) == [h] + SplitHosts(rest)
  {
    assert h + sep + rest == h + (sep + rest);
    if sep != [] {
      assert (sep + rest)[0] == sep[0];
    }
    HostFirst(h, sep + rest);
    SeparatorsFirst(sep, rest);
  }

  /**
   * Splitting undoes joining: the hosts come back in order, duplicates kept,
   * whatever mix of separators stands between them.
   */
  lemma {:induction false} SplitOfJoin(hosts: seq<string>, sep: string)
    requires forall k :: 0 <= k < |hosts| ==> IsHost(hosts[k])
    requires sep != [] && AllSeparators(sep)
    ensures SplitHosts(JoinHosts(hosts, sep)) == hosts
    decreases |hosts|
  {
    if |hosts| == 1 {
      HostFirst(hosts[0], "");
      assert hosts[0] + "" == hosts[0];
    } else if |hosts| > 1 {
      var rest := JoinHosts(hosts[1..], sep);
      assert JoinHosts(hosts, sep) == hosts[0] + sep + rest;
      assert IsHost(hosts[0]);
      SplitCons(hosts[0], sep, rest);
      assert forall k :: 0 <= k < |hosts| - 1 ==> hosts[1..][k] == hosts[k + 1];
      SplitOfJoin(hosts[1..], sep);
      assert [hosts[0]] + hosts[1..] == hosts;
    }
  }

  /** Commas, semicolons, blanks and line breaks all separate; a repeated host stays. */
  lemma MixedSeparators(a: string, b: string)
    requires IsHost(a) && IsHost(b)
    ensures SplitHosts(a + ", " + (b + ";" + (a + "\r\n"))) == [a, b, a]
  {
    var tail := a + "\r\n";
    var middle := b + ";" + tail;
    assert SplitHosts(tail) == [a] by {
      SplitCons(a, "\r\n", "");
      assert a + "\r\n" + "" == tail;
    }
    assert SplitHosts(middle) == [b, a] by {
      SplitCons(b, ";", tail);
    }
    assert SplitHosts(a + ", " + middle) == [a, b, a] by {
      SplitCons(a, ", ", middle);
    }
  }
}
