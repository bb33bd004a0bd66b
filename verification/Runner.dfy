/**
 * The main window's probe runner as an object: the fields the window keeps
 * between events and one method per event handler. Each method is proved to
 * take the window from `old(Model())` to the state the `Session` step
 * function of the same name gives, and to keep `Session.Valid`.
 */
module Runner {
  import opened Wrappers
  import opened Text
  import opened CommandBuilder
  import opened Hosts
  import opened OutputParser
  import opened Session

  class ProbeRunner {
    /** The platform family the program was built for. */
    const platform: Platform
    /** The options panel as it currently reads. */
    var options: PingOptions

    var process: ProcessState
    var busy: bool
    var hostQueue: seq<string>
    var fullText: string
    var totalExpectedReplies: int
    var repliesSoFar: int
    var progress: int
    var progressFormat: string
    var status: Status
    /** The output whose statistics the packet and RTT labels show, if any. */
    var reported: Option<string>
    var command: Command

    ghost function Model(): Window
      reads this
    {
      Window(process, busy, hostQueue, fullText, totalExpectedReplies, repliesSoFar,
             progress, progressFormat, status, reported, command)
    }

    ghost predicate Valid()
      reads this
    {
      Session.Valid(Model())
    }

    constructor(platform: Platform, options: PingOptions)
      ensures this.platform == platform && this.options == options
      ensures Model() == Initial() && Valid()
    {
      this.platform := platform;
      this.options := options;
      process := NotRunning;
      busy := false;
      hostQueue := [];
      fullText := "";
      totalExpectedReplies := 0;
      repliesSoFar := 0;
      progress := 0;
      progressFormat := "%p%";
      status := Idle;
      reported := None;
      command := Command("", []);
      new;
      InitialValid();
    }

    /** The user edits the options panel. */
    method EditOptions(opt: PingOptions)
      modifies this
      ensures options == opt && Model() == old(Model())
    {
      options := opt;
    }

    method SetRunning(running: bool)
      modifies this
      ensures Model() == Session.SetRunning(old(Model()), running)
      ensures options == old(options)
    {
      busy := running;
      if !running {
        progress := 0;
      }
    }

    method UpdateProgress(finished: bool)
      modifies this
      ensures Model() == Session.UpdateProgress(old(Model()), finished)
      ensures options == old(options)
    {
      var total := totalExpectedReplies;
      if total <= 0 {
        progress := CRem(progress + 7, 101);
        progressFormat := "running...";
        return;
      }
      var done := Min(repliesSoFar, total);
      var pct := CDiv(done * 100, total);
      progress := if finished then 100 else pct;
      progressFormat := IntToString(done) + "/" + IntToString(total);
    }

    method StartCommand(cmd: Command, started: bool)
      modifies this
      ensures Model() == Session.StartCommand(old(Model()), cmd, started)
      ensures options == old(options)
    {
      ghost var w := Model();
      fullText := "";
      repliesSoFar := 0;
      command := cmd;
      if !started {
        process := NotRunning;
        SetRunning(false);
        status := FailedToStart;
        return;
      }
      process := Running;
      SetRunning(true);
      status := RunningStatus;
      reported := None;
      assert Model() == Session.SetRunning(w.(fullText := "", repliesSoFar := 0, command := cmd, process := Running), true)
                          .(status := RunningStatus, reported := None);
      UpdateProgress(false);
    }

    method StartNextHostIfAny(started: bool)
      modifies this
      ensures Model() == Session.StartNextHostIfAny(old(Model()), platform, options, started)
      ensures options == old(options)
    {
      if hostQueue == [] {
        SetRunning(false);
        status := Done;
        return;
      }
      var host := hostQueue[0];
      hostQueue := hostQueue[1..];
      totalExpectedReplies := if options.count <= 0 then 0 else options.count;
      StartCommand(BuildPing(platform, host, options), started);
    }

    /** The Ping button, with the host field's text. */
    method PingClicked(hostText: string, started: bool)
      requires Valid()
      modifies this
      ensures Model() == Session.PingClicked(old(Model()), hostText, platform, options, started)
      ensures Valid() && options == old(options)
    {
      if process != NotRunning {
        return;
      }
      PingClickedValid(Model(), hostText, platform, options, started);
      hostQueue := SplitHosts(hostText);
      if hostQueue == [] {
        return;
      }
      StartNextHostIfAny(started);
    }

    /** The Traceroute button, with the host field's text. */
    method TracerouteClicked(hostText: string, started: bool)
      requires Valid()
      modifies this
      ensures Model() == Session.TracerouteClicked(old(Model()), hostText, platform, options.ipv6, started)
      ensures Valid() && options == old(options)
    {
      if process != NotRunning {
        return;
      }
      var host := Trim(hostText);
      if host == [] {
        return;
      }
      ghost var w := Model();
      TracerouteClickedValid(w, hostText, platform, options.ipv6, started);
      hostQueue := [];
      var cmd := BuildTraceroute(platform, host, options.ipv6);
      totalExpectedReplies := 0;
      assert Model() == w.(hostQueue := [], totalExpectedReplies := 0);
      StartCommand(cmd, started);
    }

    /** New output from the process. */
    method ReadyRead(chunk: string)
      requires Valid() && process == Running
      modifies this
      ensures Model() == Session.ReadyRead(old(Model()), chunk)
      ensures Valid() && options == old(options)
    {
      ghost var w := Model();
      ReadyReadValid(w, chunk);
      fullText := fullText + chunk;
      if totalExpectedReplies > 0 {
        var n := CountRepliesInChunk(chunk);
        repliesSoFar := repliesSoFar + n;
      }
      assert Model() == w.(fullText := w.fullText + chunk, repliesSoFar := repliesSoFar);
      UpdateProgress(false);
    }

    method Collect()
      modifies this
      ensures Model() == Session.Collect(old(Model()))
      ensures options == old(options)
    {
      process := NotRunning;
      reported := Some(fullText);
      UpdateProgress(true);
      SetRunning(false);
    }

    /** The process has exited. */
    method Finished(started: bool)
      requires Valid() && process == Running
      modifies this
      ensures Model() == Session.Finished(old(Model()), platform, options, started)
      ensures Valid() && options == old(options)
    {
      FinishedValid(Model(), platform, options, started);
      Collect();
      if hostQueue != [] {
        StartNextHostIfAny(started);
        return;
      }
      status := Done;
    }

    /** The packet and RTT figures the labels show: the parse of the reported output, or "-" for both. */
    method Statistics() returns (stats: PingStats)
      ensures stats == Shown(Model())
    {
      match reported
      case None =>
        stats := Unknown;
      case Some(text) =>
        stats := Parse(text);
    }

    /**
     * The Stop button. The queue is emptied before the kill, so that the exit
     * handler, which can run inside the wait, finds nothing left to start.
     */
    method StopClicked(exitsInWait: bool)
      requires Valid()
      modifies this
      ensures Model() == Session.StopClicked(old(Model()), exitsInWait)
      ensures Valid() && options == old(options)
    {
      StopClickedValid(Model(), exitsInWait);
      if process == NotRunning {
        SetRunning(false);
        return;
      }
      hostQueue := [];
      if exitsInWait {
        // The exit handler finds an empty queue, so the start outcome is never consulted.
        EmptyQueueStartsNothing(Model(), platform, options, false);
        Finished(false);
      }
      SetRunning(false);
      status := Stopped;
    }

    /**
     * The Stop button in the order the handler is written: the kill's exit,
     * handled inside the wait, may start the next queued host before the
     * queue is emptied.
     */
    method StopClickedAsWritten(exitsInWait: bool, started: bool)
      requires Valid()
      modifies this
      ensures Model() == Session.StopClickedAsWritten(old(Model()), exitsInWait, platform, options, started)
      ensures Valid() && options == old(options)
    {
      StopClickedAsWrittenValid(Model(), exitsInWait, platform, options, started);
      if process == NotRunning {
        SetRunning(false);
        return;
      }
      if exitsInWait {
        Finished(started);
      }
      hostQueue := [];
      SetRunning(false);
      status := Stopped;
    }

    /** The process reported an error. */
    method ProcError()
      requires Valid()
      modifies this
      ensures Model() == Session.ProcError(old(Model()))
      ensures Valid() && options == old(options)
    {
      ProcErrorValid(Model());
      SetRunning(false);
      status := ProcessError;
    }
  }
}
