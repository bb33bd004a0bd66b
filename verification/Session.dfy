/**
 * The probe runner of the main window as a state machine over values: what
 * the window holds between events (the child process's state, the pending
 * host queue, the accumulated output, the reply counters, the progress bar,
 * the status label, the statistics on display and the last command) and how
 * each event changes it.
 *
 * What the environment decides is a parameter: whether a process starts
 * within the start-up wait (`started`), whether a killed process reports
 * its exit within the stop wait (`exitsInWait`), the platform family and the
 * options panel's values at the moment a ping is launched.
 */
module Session {
  import opened Text
  import opened CommandBuilder
  import opened Hosts
  import opened Wrappers
  import opened LineSplit
  import opened OutputParser

  /** The child process as the window sees it; a start that is still pending counts as running. */
  datatype ProcessState = NotRunning | Running

  datatype Status = Idle | RunningStatus | Done | FailedToStart | Stopped | ProcessError

  /** The status label's text. */
  function Label(st: Status): string {
    match st
    case Idle => "Idle"
    case RunningStatus => "Running..."
    case Done => "Done"
    case FailedToStart => "Failed to start process"
    case Stopped => "Stopped"
    case ProcessError => "Process error"
  }

  /**
   * `busy` is the window's running flag: the request buttons disabled, the
   * Stop button enabled and the progress bar shown. `reported` is the output
   * whose statistics the packet and RTT labels show, or None while they show
   * "-".
   */
  datatype Window = Window(
    process: ProcessState,
    busy: bool,
    hostQueue: seq<string>,
    fullText: string,
    totalExpectedReplies: int,
    repliesSoFar: int,
    progress: int,
    progressFormat: string,
    status: Status,
    reported: Option<string>,
    command: Command)

  /** The statistics on display; `Unknown` renders as "-" on both labels. */
  function Shown(w: Window): PingStats {
    match w.reported
    case None => Unknown
    case Some(text) => ParsedStats(text)
  }

  /** The window as constructed: idle, empty, the bar at 0. */
  function Initial(): Window {
    Window(NotRunning, false, [], "", 0, 0, 0, "%p%", Idle, None, Command("", []))
  }

  /** Enables or disables the controls; leaving the running state resets the bar to 0. */
  function SetRunning(w: Window, running: bool): Window {
    w.(busy := running, progress := if running then w.progress else 0)
  }

  /** The share of expected replies seen, in whole percent (C++ integer division). */
  function Percent(done: int, total: int): int
    requires total > 0
  {
    CDiv(done * 100, total)
  }

  /**
   * Without an expected reply count the bar just cycles in steps of 7;
   * otherwise it shows the replies seen so far (capped at the expected count)
   * as a percentage, or 100 once the process has finished.
   */
  function UpdateProgress(w: Window, finished: bool): Window {
    var total := w.totalExpectedReplies;
    if total <= 0 then
      w.(progress := CRem(w.progress + 7, 101), progressFormat := "running...")
    else
      var done := Min(w.repliesSoFar, total);
      w.(progress := if finished then 100 else Percent(done, total),
         progressFormat := IntToString(done) + "/" + IntToString(total))
  }

  /**
   * Launches `cmd` with fresh output and reply counters. A start that fails
   * leaves the window not running with the failure status; a start that
   * succeeds blanks the statistics and sets the bar.
   */
  function StartCommand(w: Window, cmd: Command, started: bool): Window {
    var reset := w.(fullText := "", repliesSoFar := 0, command := cmd);
    if !started then
      SetRunning(reset.(process := NotRunning), false).(status := FailedToStart)
    else
      UpdateProgress(SetRunning(reset.(process := Running), true).(status := RunningStatus, reported := None), false)
  }

  /** Pings the next queued host, or reports the batch done when none is left. */
  function StartNextHostIfAny(w: Window, platform: Platform, opt: PingOptions, started: bool): Window {
    if w.hostQueue == [] then
      SetRunning(w, false).(status := Done)
    else
      var host := w.hostQueue[0];
      var expected := if opt.count <= 0 then 0 else opt.count;
      StartCommand(w.(hostQueue := w.hostQueue[1..], totalExpectedReplies := expected),
                   BuildPing(platform, host, opt), started)
  }

  /** The Ping button: ignored while a process runs; otherwise queues the typed hosts and starts the first. */
  function PingClicked(w: Window, hostText: string, platform: Platform, opt: PingOptions, started: bool): Window {
    if w.process != NotRunning then w
    else
      var hosts := SplitHosts(hostText);
      if hosts == [] then w.(hostQueue := [])
      else StartNextHostIfAny(w.(hostQueue := hosts), platform, opt, started)
  }

  /** The Traceroute button: one host, no queue, no expected reply count. */
  function TracerouteClicked(w: Window, hostText: string, platform: Platform, ipv6: bool, started: bool): Window {
    if w.process != NotRunning then w
    else
      var host := Trim(hostText);
      if host == [] then w
      else StartCommand(w.(hostQueue := [], totalExpectedReplies := 0), BuildTraceroute(platform, host, ipv6), started)
  }

  /** A chunk of output arrives: it is kept, its reply lines are counted when a count is expected, and the bar moves. */
  function ReadyRead(w: Window, chunk: string): Window {
    var replies := if w.totalExpectedReplies > 0 then w.repliesSoFar + ReplyCount(chunk) else w.repliesSoFar;
    UpdateProgress(w.(fullText := w.fullText + chunk, repliesSoFar := replies), false)
  }

  /** The process has exited: its statistics go on display and the bar is reset. */
  function Collect(w: Window): Window {
    SetRunning(UpdateProgress(w.(process := NotRunning, reported := Some(w.fullText)), true), false)
  }

  /** The exit handler: after collecting, the next queued host is pinged, or the batch is done. */
  function Finished(w: Window, platform: Platform, opt: PingOptions, started: bool): Window {
    var c := Collect(w);
    if c.hostQueue != [] then StartNextHostIfAny(c, platform, opt, started)
    else c.(status := Done)
  }

  /** A process error: the window leaves the running state; the queue and the process are left alone. */
  function ProcError(w: Window): Window {
    SetRunning(w, false).(status := ProcessError)
  }

  /**
   * The Stop button as written: the kill's exit is handled inside the wait
   * (and may start the next queued host) before the queue is cleared.
   */
  function StopClickedAsWritten(w: Window, exitsInWait: bool, platform: Platform, opt: PingOptions, started: bool)
    : (r: Window)
    ensures w.process == NotRunning ==> r == w.(busy := false, progress := 0)
    ensures w.process == Running ==> r.hostQueue == [] && r.status == Stopped && !r.busy && r.progress == 0
    ensures w.process == Running && !exitsInWait ==> r.process == Running && r.command == w.command
    ensures w.process == Running && exitsInWait && w.hostQueue == [] ==>
      r.process == NotRunning && r.reported == Some(w.fullText) && r.command == w.command
    ensures w.process == Running && exitsInWait && w.hostQueue != [] ==>
      && r.command == BuildPing(platform, w.hostQueue[0], opt)
      && r.process == (if started then Running else NotRunning)
  {
    if w.process == NotRunning then SetRunning(w, false)
    else
      var afterWait := if exitsInWait then Finished(w, platform, opt, started) else w;
      SetRunning(afterWait.(hostQueue := []), false).(status := Stopped)
  }

  /** The Stop button with the queue cleared before the kill, so the exit handler finds nothing to start. */
  function StopClicked(w: Window, exitsInWait: bool): Window {
    if w.process == NotRunning then SetRunning(w, false)
    else
      var cleared := w.(hostQueue := []);
      var afterWait := if exitsInWait then Collect(cleared).(status := Done) else cleared;
      SetRunning(afterWait, false).(status := Stopped)
  }

  // ------------------------------------------------------------- invariant

  /**
   * What every reachable window satisfies: the bar within its 0..100 range,
   * non-negative counters, no replies counted without an expected count, the
   * bar showing the reply percentage while a counted run is on, and only
   * well-formed hosts queued.
   */
  predicate Valid(w: Window) {
    && 0 <= w.progress <= 100
    && 0 <= w.totalExpectedReplies
    && 0 <= w.repliesSoFar
    && (w.totalExpectedReplies == 0 ==> w.repliesSoFar == 0)
    && (w.busy && w.totalExpectedReplies > 0 ==>
          w.progress == Percent(Min(w.repliesSoFar, w.totalExpectedReplies), w.totalExpectedReplies))
    && forall k :: 0 <= k < |w.hostQueue| ==> IsHost(w.hostQueue[k])
  }

  /** A positive factor cancels from both sides of an inequality. */
  lemma CancelFactor(p: int, q: int, t: int)
    requires t > 0
    ensures p * t <= q * t ==> p <= q
    ensures p * t < q * t ==> p < q
  {
    if p > q {
      assert (p - q) * t > 0;
    } else {
      assert (q - p) * t >= 0;
    }
  }

  /** The percentage is within the bar's range, reaches 100 exactly when every expected reply is in, and is rounded down. */
  lemma PercentBounds(done: int, total: int)
    requires 0 <= done <= total && total > 0
    ensures 0 <= Percent(done, total) <= 100
    ensures Percent(done, total) == 100 <==> done == total
    ensures Percent(done, total) * total <= done * 100 < Percent(done, total) * total + total
  {
    var p := Percent(done, total);
    assert (p + 1) * total == p * total + total;
    CancelFactor(0, p + 1, total);
    CancelFactor(p, 100, total);
    if done == total {
      CancelFactor(100, p + 1, total);
    } else {
      assert done * 100 < 100 * total;
    }
  }

  /** More replies never lower the percentage. */
  lemma PercentMonotone(a: int, b: int, total: int)
    requires 0 <= a <= b && total > 0
    ensures Percent(a, total) <= Percent(b, total)
  {
    var p, q := Percent(a, total), Percent(b, total);
    assert (q + 1) * total == q * total + total;
    assert a * 100 <= b * 100;
    CancelFactor(p, q + 1, total);
  }

  lemma InitialValid()
    ensures Valid(Initial())
  {
  }

  /** Any update keeps the bar in range; an update short of the end keeps the whole invariant. */
  lemma UpdateProgressValid(w: Window, finished: bool)
    requires Valid(w)
    ensures 0 <= UpdateProgress(w, finished).progress <= 100
    ensures !finished ==> Valid(UpdateProgress(w, finished))
  {
    if w.totalExpectedReplies > 0 && !finished {
      PercentBounds(Min(w.repliesSoFar, w.totalExpectedReplies), w.totalExpectedReplies);
    }
  }

  lemma StartCommandValid(w: Window, cmd: Command, started: bool)
    requires Valid(w.(repliesSoFar := 0, busy := false))
    ensures Valid(StartCommand(w, cmd, started))
  {
    if started {
      var total := w.totalExpectedReplies;
      if total > 0 {
        PercentBounds(0, total);
      }
    }
  }

  lemma QueueTail(q: seq<string>)
    requires q != [] && forall k :: 0 <= k < |q| ==> IsHost(q[k])
    ensures forall k :: 0 <= k < |q[1..]| ==> IsHost(q[1..][k])
  {
    assert forall k :: 0 <= k < |q[1..]| ==> q[1..][k] == q[k + 1];
  }

  lemma StartNextHostValid(w: Window, platform: Platform, opt: PingOptions, started: bool)
    requires Valid(w) && !w.busy
    ensures Valid(StartNextHostIfAny(w, platform, opt, started))
  {
    if w.hostQueue != [] {
      QueueTail(w.hostQueue);
      var expected := if opt.count <= 0 then 0 else opt.count;
      StartCommandValid(w.(hostQueue := w.hostQueue[1..], totalExpectedReplies := expected),
                        BuildPing(platform, w.hostQueue[0], opt), started);
    }
  }

  lemma PingClickedValid(w: Window, hostText: string, platform: Platform, opt: PingOptions, started: bool)
    requires Valid(w)
    ensures Valid(PingClicked(w, hostText, platform, opt, started))
  {
    if w.process == NotRunning {
      var hosts := SplitHosts(hostText);
      if hosts != [] {
        StartNextHostValid(w.(hostQueue := hosts, busy := false), platform, opt, started);
        assert StartNextHostIfAny(w.(hostQueue := hosts), platform, opt, started)
            == StartNextHostIfAny(w.(hostQueue := hosts, busy := false), platform, opt, started);
      }
    }
  }

  lemma TracerouteClickedValid(w: Window, hostText: string, platform: Platform, ipv6: bool, started: bool)
    requires Valid(w)
    ensures Valid(TracerouteClicked(w, hostText, platform, ipv6, started))
  {
    if w.process == NotRunning && Trim(hostText) != [] {
      StartCommandValid(w.(hostQueue := [], totalExpectedReplies := 0), BuildTraceroute(platform, Trim(hostText), ipv6), started);
    }
  }

  lemma ReadyReadValid(w: Window, chunk: string)
    requires Valid(w)
    ensures Valid(ReadyRead(w, chunk))
  {
    var r := ReadyRead(w, chunk);
    var total := w.totalExpectedReplies;
    if total > 0 {
      PercentBounds(Min(r.repliesSoFar, total), total);
    }
  }

  lemma FinishedValid(w: Window, platform: Platform, opt: PingOptions, started: bool)
    requires Valid(w)
    ensures Valid(Finished(w, platform, opt, started))
  {
    var c := Collect(w);
    assert Valid(c);
    if c.hostQueue != [] {
      StartNextHostValid(c, platform, opt, started);
    }
  }

  lemma StopClickedValid(w: Window, exitsInWait: bool)
    requires Valid(w)
    ensures Valid(StopClicked(w, exitsInWait))
  {
  }

  lemma StopClickedAsWrittenValid(w: Window, exitsInWait: bool, platform: Platform, opt: PingOptions, started: bool)
    requires Valid(w)
    ensures Valid(StopClickedAsWritten(w, exitsInWait, platform, opt, started))
  {
    if w.process == Running && exitsInWait {
      FinishedValid(w, platform, opt, started);
    }
  }

  lemma ProcErrorValid(w: Window)
    requires Valid(w)
    ensures Valid(ProcError(w))
  {
  }

  // ------------------------------------------------------------ behaviour

  /** Requests made while a process runs change nothing. */
  lemma RequestsIgnoredWhileRunning(w: Window, hostText: string, platform: Platform, opt: PingOptions, started: bool)
    requires w.process == Running
    ensures PingClicked(w, hostText, platform, opt, started) == w
    ensures TracerouteClicked(w, hostText, platform, opt.ipv6, started) == w
  {
  }

  /**
   * A ping request: no host leaves everything but the (now empty) queue as it
   * was; otherwise the first host is pinged, the rest wait in order, the
   * expected reply count is the ping count (0 in continuous mode), and the
   * start outcome decides between running and the failure status.
   */
  lemma PingRequest(w: Window, hostText: string, platform: Platform, opt: PingOptions, started: bool)
    requires w.process == NotRunning
    ensures var r := PingClicked(w, hostText, platform, opt, started);
      var hosts := SplitHosts(hostText);
      && (hosts == [] ==> r == w.(hostQueue := []))
      && (hosts != [] ==>
            && r.command == BuildPing(platform, hosts[0], opt)
            && r.hostQueue == hosts[1..]
            && r.totalExpectedReplies == Max(0, opt.count)
            && r.repliesSoFar == 0 && r.fullText == ""
            && r.process == (if started then Running else NotRunning)
            && r.busy == started
            && r.status == (if started then RunningStatus else FailedToStart))
  {
  }

  /** A traceroute request empties the queue and runs without an expected reply count. */
  lemma TracerouteRequest(w: Window, hostText: string, platform: Platform, ipv6: bool, started: bool)
    requires w.process == NotRunning && Trim(hostText) != []
    ensures var r := TracerouteClicked(w, hostText, platform, ipv6, started);
      && r.command == BuildTraceroute(platform, Trim(hostText), ipv6)
      && r.hostQueue == []
      && r.totalExpectedReplies == 0
      && r.repliesSoFar == 0 && r.fullText == ""
      && r.process == (if started then Running else NotRunning)
      && r.busy == started
      && r.status == (if started then RunningStatus else FailedToStart)
  {
  }

  /**
   * A chunk is appended to the output and its reply lines are added to the
   * count when a count is expected; nothing else but the bar changes.
   */
  lemma ReadyReadAccumulates(w: Window, chunk: string)
    ensures var r := ReadyRead(w, chunk);
      && r.fullText == w.fullText + chunk
      && r.repliesSoFar == w.repliesSoFar + (if w.totalExpectedReplies > 0 then ReplyCount(chunk) else 0)
      && r.hostQueue == w.hostQueue && r.process == w.process && r.busy == w.busy
      && r.status == w.status && r.command == w.command && r.reported == w.reported
      && r.totalExpectedReplies == w.totalExpectedReplies
  {
  }

  /**
   * During a counted run the bar never moves back, and it reaches 100 exactly
   * when the replies seen cover the expected count.
   */
  lemma ProgressNeverFalls(w: Window, chunk: string)
    requires Valid(w) && w.busy && w.totalExpectedReplies > 0
    ensures var r := ReadyRead(w, chunk);
      && w.progress <= r.progress
      && (r.progress == 100 <==> r.repliesSoFar >= w.totalExpectedReplies)
  {
    var r := ReadyRead(w, chunk);
    var total := w.totalExpectedReplies;
    PercentMonotone(Min(w.repliesSoFar, total), Min(r.repliesSoFar, total), total);
    PercentBounds(Min(r.repliesSoFar, total), total);
  }

  /**
   * Without an expected count the bar steps by 7 modulo 101 within its range;
   * with one, a finished run sets it to exactly 100, which the exit handler
   * then resets to 0 as the controls leave the running state.
   */
  lemma ProgressOnUpdate(w: Window, finished: bool)
    requires 0 <= w.progress <= 100
    ensures w.totalExpectedReplies <= 0 ==>
      UpdateProgress(w, finished).progress == (w.progress + 7) % 101 <= 100
    ensures w.totalExpectedReplies > 0 ==> UpdateProgress(w, true).progress == 100
    ensures Collect(w).progress == 0 && !Collect(w).busy
  {
  }

  /**
   * When the last queued process exits, its statistics stay on display and the
   * batch is done; when hosts remain, the next one is pinged and leaves the queue.
   */
  lemma FinishedAdvances(w: Window, platform: Platform, opt: PingOptions, started: bool)
    ensures var r := Finished(w, platform, opt, started);
      && (w.hostQueue == [] ==>
            r.reported == Some(w.fullText) && r.status == Done && r.process == NotRunning
            && !r.busy && r.progress == 0 && r.command == w.command)
      && (w.hostQueue != [] ==>
            && r.command == BuildPing(platform, w.hostQueue[0], opt) && r.hostQueue == w.hostQueue[1..]
            && r.totalExpectedReplies == Max(0, opt.count)
            && r.repliesSoFar == 0 && r.fullText == ""
            && r.process == (if started then Running else NotRunning)
            && r.busy == started
            && r.status == (if started then RunningStatus else FailedToStart))
  {
  }

  /** A successful start blanks both statistics labels. */
  lemma StartBlanksLabels(w: Window, cmd: Command)
    ensures Shown(StartCommand(w, cmd, true)) == Unknown
  {
  }

  /** After the last exit the labels show the statistics parsed from that run's whole output. */
  lemma LastExitShowsStatistics(w: Window, platform: Platform, opt: PingOptions, started: bool)
    requires w.hostQueue == []
    ensures Shown(Finished(w, platform, opt, started)) == ParsedStats(w.fullText)
  {
  }

  /** A run whose output holds no summary line ends with both labels at "-". */
  lemma SilentRunShowsDashes(w: Window, platform: Platform, opt: PingOptions, started: bool)
    requires w.hostQueue == []
    requires forall k :: 0 <= k < |Lines(w.fullText)| ==>
      !HasPacketSummary(Lines(w.fullText)[k]) && !HasRttSummary(Lines(w.fullText)[k])
    requires !HasPacketSummary(w.fullText) && !HasRttSummary(w.fullText)
    ensures Shown(Finished(w, platform, opt, started)) == Unknown
  {
    NothingMatches(w.fullText);
  }

  /** A chunk of n reply lines moves a counted run's reply count on by exactly n. */
  lemma ReadyReadCountsReplies(w: Window, replies: seq<string>, sep: string)
    requires w.totalExpectedReplies > 0
    requires replies != [] && (sep == "\n" || sep == "\r\n")
    requires forall k :: 0 <= k < |replies| ==> Joinable(replies[k], sep) && IsReplyLine(replies[k])
    ensures ReadyRead(w, Join(replies, sep)).repliesSoFar == w.repliesSoFar + |replies|
  {
    ReplyChunk(replies, sep);
  }

  /** A process error neither touches the queue nor the process; only the controls and the label change. */
  lemma ProcErrorKeepsQueue(w: Window)
    ensures var r := ProcError(w);
      && r.hostQueue == w.hostQueue && r.process == w.process && r.command == w.command
      && !r.busy && r.progress == 0 && r.status == ProcessError
  {
  }

  /** `n` exits in a row, each next start succeeding. */
  function AfterExits(w: Window, n: nat, platform: Platform, opt: PingOptions): Window
    decreases n
  {
    if n == 0 then w else AfterExits(Finished(w, platform, opt, true), n - 1, platform, opt)
  }

  /**
   * Queued hosts are pinged one after another in queue order: after `n` exits
   * the command is the ping of the n-th queued host and the hosts after it still
   * wait.
   */
  lemma {:induction false} QueueDrainsInOrder(w: Window, n: nat, platform: Platform, opt: PingOptions)
    requires n < |w.hostQueue|
    ensures var r := AfterExits(w, n + 1, platform, opt);
      && r.command == BuildPing(platform, w.hostQueue[n], opt)
      && r.hostQueue == w.hostQueue[n + 1..]
      && r.process == Running && r.status == RunningStatus
    decreases n
  {
    var f := Finished(w, platform, opt, true);
    FinishedAdvances(w, platform, opt, true);
    if n > 0 {
      QueueDrainsInOrder(f, n - 1, platform, opt);
      assert w.hostQueue[1..][n - 1] == w.hostQueue[n];
      assert w.hostQueue[1..][n..] == w.hostQueue[n + 1..];
    }
  }

  /** One exit more than there are queued hosts ends the batch. */
  lemma {:induction false} QueueDrainsToDone(w: Window, platform: Platform, opt: PingOptions)
    ensures var r := AfterExits(w, |w.hostQueue| + 1, platform, opt);
      r.hostQueue == [] && r.process == NotRunning && r.status == Done && !r.busy
    decreases |w.hostQueue|
  {
    var f := Finished(w, platform, opt, true);
    FinishedAdvances(w, platform, opt, true);
    if w.hostQueue != [] {
      assert |f.hostQueue| == |w.hostQueue| - 1;
      QueueDrainsToDone(f, platform, opt);
    }
  }

  /**
   * A ping request for several hosts pings each of them in the order typed,
   * duplicates included, and the batch ends as done.
   */
  lemma HostsPingedInOrder(w: Window, hostText: string, platform: Platform, opt: PingOptions, k: nat)
    requires w.process == NotRunning && k < |SplitHosts(hostText)|
    ensures var hosts := SplitHosts(hostText);
      var start := PingClicked(w, hostText, platform, opt, true);
      && AfterExits(start, k, platform, opt).command == BuildPing(platform, hosts[k], opt)
      && AfterExits(start, |hosts|, platform, opt).status == Done
  {
    var hosts := SplitHosts(hostText);
    var start := PingClicked(w, hostText, platform, opt, true);
    PingRequest(w, hostText, platform, opt, true);
    if k > 0 {
      QueueDrainsInOrder(start, k - 1, platform, opt);
      assert hosts[1..][k - 1] == hosts[k];
    }
    QueueDrainsToDone(start, platform, opt);
  }

  // ----------------------------------------------------------------- stop

  /** Stop with nothing running only resets the controls; the queue stays. */
  lemma StopWhenIdle(w: Window, exitsInWait: bool)
    requires w.process == NotRunning
    ensures StopClicked(w, exitsInWait) == w.(busy := false, progress := 0)
  {
  }

  /**
   * Stop while a process runs: the queue is emptied, no further host is
   * started (the command stays the one being stopped), and the process is gone
   * with its statistics on display once it has exited within the wait.
   */
  lemma StopHalts(w: Window, exitsInWait: bool)
    requires w.process == Running
    ensures var r := StopClicked(w, exitsInWait);
      && r.hostQueue == [] && !r.busy && r.progress == 0 && r.status == Stopped
      && r.command == w.command
      && (exitsInWait ==> r.process == NotRunning && r.reported == Some(w.fullText))
      && (!exitsInWait ==> r.process == Running)
  {
  }

  /** Once the queue is empty the exit handler starts nothing, whatever the options and the start outcome. */
  lemma EmptyQueueStartsNothing(w: Window, platform: Platform, opt: PingOptions, started: bool)
    requires w.hostQueue == []
    ensures Finished(w, platform, opt, started) == Collect(w).(status := Done)
  {
  }

  /**
   * As written, Stop during a batch with hosts left and a process that exits
   * within the wait launches the next host from inside the wait and then
   * reports "Stopped" with the controls idle: a process runs, Stop is disabled
   * and new requests are ignored.
   */
  lemma StopAsWrittenStartsNextHost(w: Window, platform: Platform, opt: PingOptions, hostText: string)
    requires w.process == Running && w.hostQueue != []
    ensures var r := StopClickedAsWritten(w, true, platform, opt, true);
      && r.process == Running
      && r.command == BuildPing(platform, w.hostQueue[0], opt)
      && r.status == Stopped && !r.busy
      && PingClicked(r, hostText, platform, opt, true) == r
      && TracerouteClicked(r, hostText, platform, opt.ipv6, true) == r
  {
  }

  /** In continuous mode that stray ping has no end of its own. */
  lemma StopAsWrittenContinuous(w: Window, platform: Platform, opt: PingOptions)
    requires w.process == Running && w.hostQueue != [] && opt.count <= 0
    ensures var r := StopClickedAsWritten(w, true, platform, opt, true);
      r.process == Running && r.totalExpectedReplies == 0
      && (platform == Windows ==> r.command.args[1] == "-t")
      && (platform == Posix ==> "-c" !in r.command.args[..|r.command.args| - 1])
  {
    var r := StopClickedAsWritten(w, true, platform, opt, true);
    WindowsPingArgs(w.hostQueue[0], opt);
    PosixCountFlag(w.hostQueue[0], opt);
  }

  /**
   * A start that fails leaves nothing running, and no handler but a new
   * request launches a process from there: Stop (either version) and a
   * process error keep the process down and the command as it was, and
   * output and exit notifications come only from a running process.
   */
  lemma FailedStartLaunchesNothing(w: Window, cmd: Command, exitsInWait: bool, platform: Platform, opt: PingOptions,
                                   started: bool)
    ensures var f := StartCommand(w, cmd, false);
      && f.process == NotRunning && !f.busy && f.status == FailedToStart && f.command == cmd
      && StopClicked(f, exitsInWait).process == NotRunning && StopClicked(f, exitsInWait).command == cmd
      && StopClickedAsWritten(f, exitsInWait, platform, opt, started).process == NotRunning
      && StopClickedAsWritten(f, exitsInWait, platform, opt, started).command == cmd
      && ProcError(f).process == NotRunning && ProcError(f).command == cmd
  {
  }

  /** With the queue cleared first, the same situation ends with nothing running. */
  lemma StopClearsFirst(w: Window)
    requires w.process == Running && w.hostQueue != []
    ensures StopClicked(w, true).process == NotRunning
    ensures StopClicked(w, true).command == w.command
  {
  }
}
