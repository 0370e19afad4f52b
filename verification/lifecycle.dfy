/** The per-server operations: start, stop, reload and status, each deciding
    from the pid record, the signal oracle and the launch oracle what to do. */
module Lifecycle {
  import opened Php
  import opened Trace
  import opened Environment
  import opened Command
  import opened Channel

  /** The pid record. There is a single fixed pid file for every server, so
      the name is not consulted; `None` is the `false` for a missing file. */
  function GetMasterPid(env: Env, serverName: string): (pid: Option<string>)
    ensures pid == env.pidFile
  {
    env.pidFile
  }

  /** Liveness by the null signal. The record is not checked first: with no
      pid file the signal goes to the `false` that was read. */
  function Status(env: Env, serverName: string): (o: Outcome)
    ensures Filter(o.trace, IsSignal) == [Signal(env.pidFile, SigDfl, o.ok)]
    ensures o.ok <==> env.kill(env.pidFile, SigDfl)
    ensures Filter(o.trace, IsExec) == [] && Filter(o.trace, IsSend) == []
  {
    var pid := GetMasterPid(env, serverName);
    var alive := env.kill(pid, SigDfl);
    FilterPair(ReadPid(pid), Signal(pid, SigDfl, alive));
    Outcome(alive, [ReadPid(pid), Signal(pid, SigDfl, alive)])
  }

  /** SIGTERM to the recorded process; a `delete` goes to the daemon only
      after the signal was delivered, and its reply does not change the
      result. */
  function Stop(env: Env, serverName: string): (o: Outcome)
    ensures env.pidFile.None? ==> o == Outcome(false, [ReadPid(None)])
    ensures env.pidFile.Some? ==> Filter(o.trace, IsSignal) == [Signal(env.pidFile, SigTerm, o.ok)]
    ensures o.ok <==> env.pidFile.Some? && env.kill(env.pidFile, SigTerm)
    ensures Filter(o.trace, IsSend) ==
      (if o.ok && Reachable(env.daemon) then [Send(Message(Delete, serverName))] else [])
    ensures Filter(o.trace, IsExec) == []
  {
    var pid := GetMasterPid(env, serverName);
    if pid.None? then
      FilterOne(ReadPid(pid));
      Outcome(false, [ReadPid(pid)])
    else
      var killed := env.kill(pid, SigTerm);
      var head := [ReadPid(pid), Signal(pid, SigTerm, killed)];
      FilterPair(ReadPid(pid), Signal(pid, SigTerm, killed));
      if killed then
        var x := NoticeDaemon(env.daemon, Message(Delete, serverName));
        FilterAppend(head, x.trace);
        Outcome(true, head + x.trace)
      else
        Outcome(false, head)
  }

  /** SIGUSR1, Swoole's reload signal, to the recorded process; the daemon is
      never told. */
  function Reload(env: Env, serverName: string): (o: Outcome)
    ensures env.pidFile.None? ==> o == Outcome(false, [ReadPid(None)])
    ensures env.pidFile.Some? ==> Filter(o.trace, IsSignal) == [Signal(env.pidFile, SigUsr1, o.ok)]
    ensures o.ok <==> env.pidFile.Some? && env.kill(env.pidFile, SigUsr1)
    ensures Filter(o.trace, IsSend) == [] && Filter(o.trace, IsExec) == []
  {
    var pid := GetMasterPid(env, serverName);
    if pid.None? then
      FilterOne(ReadPid(pid));
      Outcome(false, [ReadPid(pid)])
    else
      var reloaded := env.kill(pid, SigUsr1);
      FilterPair(ReadPid(pid), Signal(pid, SigUsr1, reloaded));
      Outcome(reloaded, [ReadPid(pid), Signal(pid, SigUsr1, reloaded)])
  }

  /** Builds the launch command and hands it to `Launch`; an entry without an
      executable is refused before anything runs. */
  function StartServer(env: Env, serverName: string, cfg: ServerConfig): (o: Outcome)
    ensures BuildCommand(cfg, env.workingDir).None? ==> o == Outcome(false, [])
    ensures BuildCommand(cfg, env.workingDir).Some? ==>
      var cmd := BuildCommand(cfg, env.workingDir).value;
      && Filter(o.trace, IsExec) == [Exec(cmd, env.exec(cmd))]
      && (o.ok <==> env.exec(cmd) == 0)
    ensures Filter(o.trace, IsSend) ==
      (if o.ok && Reachable(env.daemon) then [Send(Message(Add, serverName))] else [])
    ensures Filter(o.trace, IsSignal) == []
  {
    var cmd := BuildCommand(cfg, env.workingDir);
    // `$cmd == false`: a built command is never "" or "0".
    if cmd.None? || Falsy(cmd.value) then
      Outcome(false, [])
    else
      Launch(env, serverName, cmd.value)
  }

  /** The part of `startServer` after the command is built: one run of the
      command, and an `add` to the daemon only when it exited with 0. */
  function Launch(env: Env, serverName: string, cmd: string): (o: Outcome)
    ensures Filter(o.trace, IsExec) == [Exec(cmd, env.exec(cmd))]
    ensures o.ok <==> env.exec(cmd) == 0
    ensures !o.ok ==> o.trace[|o.trace| - 1] == Error(LaunchFailed(serverName))
    ensures Filter(o.trace, IsSend) ==
      (if o.ok && Reachable(env.daemon) then [Send(Message(Add, serverName))] else [])
    ensures Filter(o.trace, IsSignal) == []
  {
    var code := env.exec(cmd);
    if code != 0 then
      FilterPair(Exec(cmd, code), Error(LaunchFailed(serverName)));
      Outcome(false, [Exec(cmd, code), Error(LaunchFailed(serverName))])
    else
      var x := NoticeDaemon(env.daemon, Message(Add, serverName));
      FilterOne(Exec(cmd, code));
      FilterAppend([Exec(cmd, code)], x.trace);
      Outcome(true, [Exec(cmd, code)] + x.trace)
  }

  /** Whether `start` finds the server already running: a pid record that is
      loosely true (neither "" nor "0") whose process answers the null
      signal. */
  predicate FoundRunning(env: Env) {
    Truthy(env.pidFile) && env.kill(env.pidFile, SigDfl)
  }

  /** The check `start` makes before launching: the pid record is read, and
      only a loosely true one is tested with the null signal. */
  function StartCheck(env: Env, serverName: string): (o: Outcome)
    ensures o.ok <==> FoundRunning(env)
    ensures Filter(o.trace, IsSignal) ==
      (if Truthy(env.pidFile) then [Signal(env.pidFile, SigDfl, env.kill(env.pidFile, SigDfl))] else [])
    ensures Filter(o.trace, IsExec) == [] && Filter(o.trace, IsSend) == []
    ensures o.trace != [] && o.trace[0] == ReadPid(env.pidFile)
  {
    var pid := GetMasterPid(env, serverName);
    FilterOne(ReadPid(pid));
    if Truthy(pid) then
      var status := Status(env, serverName);
      FilterAppend([ReadPid(pid)], status.trace);
      Outcome(status.ok, [ReadPid(pid)] + status.trace)
    else
      Outcome(false, [ReadPid(pid)])
  }

  /** Refuses an unknown server without touching anything; returns true
      without launching when the recorded process is alive; otherwise makes
      exactly one launch attempt. */
  function Start(env: Env, serverName: string): (o: Outcome)
    ensures serverName !in env.servers ==> o == Outcome(false, [Error(UnknownServer)])
    ensures serverName in env.servers && FoundRunning(env) ==>
      o.ok && Filter(o.trace, IsExec) == [] && Filter(o.trace, IsSend) == []
    ensures serverName in env.servers && !FoundRunning(env) ==>
      var cmd := BuildCommand(env.servers[serverName], env.workingDir);
      && Filter(o.trace, IsExec) == (if cmd.Some? then [Exec(cmd.value, env.exec(cmd.value))] else [])
      && (o.ok <==> cmd.Some? && env.exec(cmd.value) == 0)
    ensures Filter(o.trace, IsSignal) ==
      (if serverName in env.servers && Truthy(env.pidFile)
       then [Signal(env.pidFile, SigDfl, env.kill(env.pidFile, SigDfl))] else [])
    ensures Filter(o.trace, IsSend) ==
      (if o.ok && !FoundRunning(env) && Reachable(env.daemon)
       then [Send(Message(Add, serverName))] else [])
  {
    if serverName !in env.servers then
      FilterOne(Error(UnknownServer));
      Outcome(false, [Error(UnknownServer)])
    else
      var check := StartCheck(env, serverName);
      if check.ok then
        check
      else
        var s := StartServer(env, serverName, env.servers[serverName]);
        var t := check.trace + s.trace;
        assert Filter(t, IsExec) == Filter(s.trace, IsExec) by {
          FilterConcat(check.trace, s.trace, IsExec);
        }
        assert Filter(t, IsSend) == Filter(s.trace, IsSend) by {
          FilterConcat(check.trace, s.trace, IsSend);
        }
        assert Filter(t, IsSignal) == Filter(check.trace, IsSignal) by {
          FilterConcat(check.trace, s.trace, IsSignal);
        }
        Outcome(s.ok, t)
  }

  /** Every operation keeps its trace well formed: registrations justified,
      exchanges closed, none of `run`'s own effects. */
  lemma StatusWellFormed(env: Env, serverName: string)
    ensures WellFormed(Status(env, serverName).trace)
  {
  }

  lemma StopWellFormed(env: Env, serverName: string)
    ensures WellFormed(Stop(env, serverName).trace)
  {
    var pid := env.pidFile;
    if pid.Some? && env.kill(pid, SigTerm) {
      var head := [ReadPid(pid), Signal(pid, SigTerm, true)];
      var x := NoticeDaemon(env.daemon, Message(Delete, serverName));
      assert Stop(env, serverName).trace == head + x.trace;
      QuietPairWellFormed(ReadPid(pid), Signal(pid, SigTerm, true));
      WellFormedAppend(head, x.trace);
    }
  }

  lemma ReloadWellFormed(env: Env, serverName: string)
    ensures WellFormed(Reload(env, serverName).trace)
  {
  }

  lemma LaunchWellFormed(env: Env, serverName: string, cmd: string)
    ensures WellFormed(Launch(env, serverName, cmd).trace)
  {
    if env.exec(cmd) == 0 {
      var x := NoticeDaemon(env.daemon, Message(Add, serverName));
      WellFormedAppend([Exec(cmd, 0)], x.trace);
    }
  }

  lemma StartServerWellFormed(env: Env, serverName: string, cfg: ServerConfig)
    ensures WellFormed(StartServer(env, serverName, cfg).trace)
  {
    var cmd := BuildCommand(cfg, env.workingDir);
    if cmd.Some? {
      LaunchWellFormed(env, serverName, cmd.value);
    }
  }

  lemma StartCheckWellFormed(env: Env, serverName: string)
    ensures WellFormed(StartCheck(env, serverName).trace)
  {
    if Truthy(env.pidFile) {
      StatusWellFormed(env, serverName);
      WellFormedAppend([ReadPid(env.pidFile)], Status(env, serverName).trace);
    }
  }

  lemma StartWellFormed(env: Env, serverName: string)
    ensures WellFormed(Start(env, serverName).trace)
  {
    if serverName in env.servers {
      var check := StartCheck(env, serverName);
      StartCheckWellFormed(env, serverName);
      if !check.ok {
        var s := StartServer(env, serverName, env.servers[serverName]);
        StartServerWellFormed(env, serverName, env.servers[serverName]);
        WellFormedAppend(check.trace, s.trace);
      }
    }
  }

  /** The pid record is one slot shared by every server: status and reload
      give the same answer for any two names, and stop signals the same
      process. */
  lemma OneRecordForAllServers(env: Env, a: string, b: string)
    ensures Status(env, a) == Status(env, b)
    ensures Reload(env, a) == Reload(env, b)
    ensures Stop(env, a).ok == Stop(env, b).ok
    ensures Filter(Stop(env, a).trace, IsSignal) == Filter(Stop(env, b).trace, IsSignal)
  {
  }

  /** `start` tests the record loosely and `stop` strictly: a pid file holding
      "" or "0" makes `start` skip the liveness check and launch, while
      `stop` still hands the record to `posix_kill` with SIGTERM. Whether a
      signal is delivered is the kill oracle's answer. */
  lemma LooseStartStrictStop(env: Env, serverName: string)
    requires serverName in env.servers
    requires env.pidFile == Some("") || env.pidFile == Some("0")
    ensures Filter(Start(env, serverName).trace, IsSignal) == []
    ensures var cmd := BuildCommand(env.servers[serverName], env.workingDir);
      cmd.Some? ==> Filter(Start(env, serverName).trace, IsExec) == [Exec(cmd.value, env.exec(cmd.value))]
    ensures Filter(Stop(env, serverName).trace, IsSignal) ==
      [Signal(env.pidFile, SigTerm, env.kill(env.pidFile, SigTerm))]
  {
  }

  /** Two starts in a row, the second seeing a live process in the pid file
      the first launch wrote: the second returns true without launching, so
      the two together launch exactly once when the first found nothing
      running and had a command to run, and never otherwise. */
  lemma SecondStartDoesNotRelaunch(env: Env, serverName: string, pid: string)
    requires serverName in env.servers
    requires !Falsy(pid) && env.kill(Some(pid), SigDfl)
    ensures var first := Start(env, serverName);
      var second := Start(env.(pidFile := Some(pid)), serverName);
      && second.ok
      && |Filter(first.trace + second.trace, IsExec)| ==
         (if !FoundRunning(env) && HasCli(env.servers[serverName]) then 1 else 0)
  {
    var first := Start(env, serverName);
    var second := Start(env.(pidFile := Some(pid)), serverName);
    assert FoundRunning(env.(pidFile := Some(pid)));
    FilterConcat(first.trace, second.trace, IsExec);
  }
}
