/**
 * Builds the probe command line: an executable name and a literal argument
 * vector (no shell), from the target host and the portable ping options.
 * The platform family is a parameter instead of a compile-time test.
 */
module CommandBuilder {
  import opened Text

  datatype Platform = Windows | Posix

  /**
   * The ping options. `count <= 0` means continuous; the interval is kept in
   * thousandths of a second (the options panel offers two decimals).
   */
  datatype PingOptions = PingOptions(count: int, timeoutMs: int, intervalMillis: int, payloadBytes: int, ipv6: bool)

  datatype Command = Command(program: string, args: seq<string>)

  /** The first argument: the address family. */
  function FamilyFlag(ipv6: bool): string {
    if ipv6 then "-6" else "-4"
  }

  /** `-W` on POSIX: `max(1, (timeoutMs + 999) / 1000)` with C++ division. */
  function TimeoutSeconds(timeoutMs: int): (secs: int)
    ensures secs >= 1
    ensures timeoutMs <= 1000 ==> secs == 1
    ensures timeoutMs > 0 ==> (secs - 1) * 1000 < timeoutMs <= secs * 1000
  {
    Max(1, CDiv(timeoutMs + 999, 1000))
  }

  /** `-i` on POSIX: the interval raised to at least 0.2 s, with three decimals. */
  function IntervalText(intervalMillis: int): string {
    FixedThousandths(Max(200, intervalMillis))
  }

  /**
   * The `ping` argument vector: the family flag, the count (or continuous
   * mode), the platform's timeout, interval and payload flags, and the trimmed
   * host last.
   */
  function BuildPing(platform: Platform, host: string, opt: PingOptions): (c: Command)
    ensures c.program == "ping"
    ensures |c.args| >= 2 && c.args[0] == FamilyFlag(opt.ipv6) && c.args[|c.args| - 1] == Trim(host)
  {
    var f, t := FamilyFlag(opt.ipv6), Trim(host);
    match platform
    case Windows =>
      var w, l := IntToString(opt.timeoutMs), IntToString(opt.payloadBytes);
      if opt.count <= 0 then Command("ping", [f, "-t", "-w", w, "-l", l, t])
      else Command("ping", [f, "-n", IntToString(opt.count), "-w", w, "-l", l, t])
    case Posix =>
      var w, i, s := IntToString(TimeoutSeconds(opt.timeoutMs)), IntervalText(opt.intervalMillis),
                     IntToString(Max(0, opt.payloadBytes));
      if opt.count > 0 then Command("ping", [f, "-c", IntToString(opt.count), "-W", w, "-i", i, "-s", s, t])
      else Command("ping", [f, "-W", w, "-i", i, "-s", s, t])
  }

  function BuildTraceroute(platform: Platform, host: string, ipv6: bool): (c: Command)
    ensures c.args == [FamilyFlag(ipv6), Trim(host)]
    ensures c.program == (if platform == Windows then "tracert" else "traceroute")
  {
    match platform
    case Windows => Command("tracert", [FamilyFlag(ipv6), Trim(host)])
    case Posix => Command("traceroute", [FamilyFlag(ipv6), Trim(host)])
  }

  /** An argument that renders a number is never mistaken for a flag. */
  predicate IsFlag(a: string) {
    |a| >= 2 && a[0] == '-' && !IsDigit(a[1])
  }

  lemma NumberIsNotFlag(i: int)
    ensures !IsFlag(IntToString(i))
  {
    var r := IntToString(i);
    if i >= 0 {
      assert IsDigit(r[0]);
    } else {
      assert r[1] == r[1..][0];
    }
  }

  lemma FlagsAreFlags()
    ensures IsFlag("-c") && IsFlag("-i") && IsFlag("-n") && IsFlag("-t") && IsFlag("-w") && IsFlag("-l")
    ensures IsFlag("-W") && IsFlag("-s") && IsFlag("-4") == false && IsFlag("-6") == false
  {
  }

  /**
   * Windows: `-t` exactly in continuous mode, otherwise `-n <count>`; then
   * `-w` and `-l` carry the timeout and the payload verbatim (negative values
   * included).
   */
  lemma WindowsPingArgs(host: string, opt: PingOptions)
    ensures var a := BuildPing(Windows, host, opt).args;
      var o := if opt.count <= 0 then 0 else 1;
      && |a| == 7 + o
      && (a[1] == "-t" <==> opt.count <= 0)
      && (opt.count > 0 ==> a[1] == "-n" && a[2] == IntToString(opt.count))
      && a[2 + o] == "-w" && a[3 + o] == IntToString(opt.timeoutMs)
      && a[4 + o] == "-l" && a[5 + o] == IntToString(opt.payloadBytes)
  {
  }

  /** Windows `ping` is given no interval flag: the option is ignored there. */
  lemma WindowsNoInterval(host: string, opt: PingOptions)
    ensures var a := BuildPing(Windows, host, opt).args;
      "-i" !in a[..|a| - 1]
  {
    var a := BuildPing(Windows, host, opt).args;
    var w, l := IntToString(opt.timeoutMs), IntToString(opt.payloadBytes);
    NumberIsNotFlag(opt.timeoutMs);
    NumberIsNotFlag(opt.payloadBytes);
    FlagsAreFlags();
    if opt.count > 0 {
      NumberIsNotFlag(opt.count);
      assert a[..|a| - 1] == [a[0], "-n", IntToString(opt.count), "-w", w, "-l", l];
    } else {
      assert a[..|a| - 1] == [a[0], "-t", "-w", w, "-l", l];
    }
  }

  /**
   * POSIX: `-c <count>` when count > 0, then `-W` whole seconds rounded up
   * and at least 1, `-i` the interval raised to 0.2 s with three decimals,
   * `-s` the payload raised to 0.
   */
  lemma PosixPingArgs(host: string, opt: PingOptions)
    ensures var a := BuildPing(Posix, host, opt).args;
      var o := if opt.count > 0 then 2 else 0;
      && |a| == 8 + o
      && (opt.count > 0 ==> a[1] == "-c" && a[2] == IntToString(opt.count))
      && a[1 + o] == "-W" && a[2 + o] == IntToString(TimeoutSeconds(opt.timeoutMs))
      && a[3 + o] == "-i" && a[4 + o] == IntervalText(opt.intervalMillis)
      && a[5 + o] == "-s" && a[6 + o] == IntToString(Max(0, opt.payloadBytes))
  {
  }

  /** The `-i` argument reads back as the interval in seconds, raised to 0.2. */
  lemma IntervalTextValue(intervalMillis: int)
    ensures AllDecimalChars(IntervalText(intervalMillis))
    ensures DecimalValue(IntervalText(intervalMillis)) == Max(200, intervalMillis) as real / 1000.0
  {
    FixedThousandthsValue(Max(200, intervalMillis));
  }

  /** POSIX continuous mode is the absence of `-c`, not a count of zero. */
  lemma PosixCountFlag(host: string, opt: PingOptions)
    ensures var a := BuildPing(Posix, host, opt).args;
      "-c" in a[..|a| - 1] <==> opt.count > 0
  {
    var a := BuildPing(Posix, host, opt).args;
    if opt.count > 0 {
      assert a[..|a| - 1][1] == "-c";
    } else {
      var w, i, s := a[2], a[4], a[6];
      NumberIsNotFlag(TimeoutSeconds(opt.timeoutMs));
      NumberIsNotFlag(Max(0, opt.payloadBytes));
      FlagsAreFlags();
      assert !IsFlag(i) by {
        assert IsDigit(i[..|i| - 4][0]);
      }
      assert a[..|a| - 1] == [a[0], "-W", w, "-i", i, "-s", s];
    }
  }

  lemma SmallNumerals()
    ensures IntToString(1) == "1" && IntToString(4) == "4" && IntToString(32) == "32"
  {
    assert NatToString(32) == NatToString(3) + [DigitChar(2)];
  }

  lemma Numeral1000()
    ensures IntToString(1000) == "1000"
  {
    assert NatToString(10) == NatToString(1) + [DigitChar(0)];
    assert NatToString(100) == NatToString(10) + [DigitChar(0)];
    assert NatToString(1000) == NatToString(100) + [DigitChar(0)];
  }

  lemma ExampleHost()
    ensures Trim("example.com") == "example.com"
  {
    assert NoSpace("example.com");
  }

  /** The default options on a POSIX host: `-4 -c 4 -W 1 -i 1.000 -s 32 example.com`. */
  lemma PosixDefaultOptionsExample()
    ensures BuildPing(Posix, "example.com", PingOptions(4, 1000, 1000, 32, false)).args
            == ["-4", "-c", "4", "-W", "1", "-i", "1.000", "-s", "32", "example.com"]
  {
    var opt := PingOptions(4, 1000, 1000, 32, false);
    assert BuildPing(Posix, "example.com", opt).args
        == [FamilyFlag(false), "-c", IntToString(4), "-W", IntToString(TimeoutSeconds(1000)), "-i", IntervalText(1000),
            "-s", IntToString(Max(0, 32)), Trim("example.com")];
    SmallNumerals();
    ExampleHost();
    assert TimeoutSeconds(1000) == 1 && Max(0, 32) == 32;
    assert IntervalText(1000) == "1.000" by {
      assert Pad3(0) == "000";
    }
  }

  /** The default options on Windows: `-4 -n 4 -w 1000 -l 32 example.com`. */
  lemma WindowsDefaultOptionsExample()
    ensures BuildPing(Windows, "example.com", PingOptions(4, 1000, 1000, 32, false)).args
            == ["-4", "-n", "4", "-w", "1000", "-l", "32", "example.com"]
  {
    SmallNumerals();
    Numeral1000();
    ExampleHost();
  }

  /** Sub-second timeouts and short intervals are raised, not passed through. */
  lemma PosixRoundingExamples()
    ensures TimeoutSeconds(1500) == 2 && TimeoutSeconds(1000) == 1 && TimeoutSeconds(1) == 1
    ensures IntervalText(100) == "0.200" && IntervalText(1000) == "1.000"
  {
    assert FixedThousandths(200) == "0.200";
    assert FixedThousandths(1000) == "1.000";
  }
}
