/** The command-line entry point: argument check, daemon probe and bootstrap,
    then dispatch to one operation. */
module Monitor {
  import opened Php
  import opened Trace
  import opened Environment
  import opened Channel
  import opened Lifecycle

  /** The commands `run` dispatches on. */
  predicate KnownCommand(command: string) {
    command == "start" || command == "stop" || command == "reload" || command == "status"
  }

  /** The operation `command` names, as its trace; `run` discards the
      operation's boolean. An unknown command is reported and does nothing
      else. */
  function Dispatch(env: Env, serverName: string, command: string): (t: seq<Effect>)
    ensures !KnownCommand(command) ==> t == [Error(UnknownCommand)]
    ensures |Filter(t, IsSignal)| <= 1 && |Filter(t, IsExec)| <= 1
  {
    if command == "start" then Start(env, serverName).trace
    else if command == "stop" then Stop(env, serverName).trace
    else if command == "reload" then Reload(env, serverName).trace
    else if command == "status" then Status(env, serverName).trace
    else
      FilterOne(Error(UnknownCommand));
      [Error(UnknownCommand)]
  }

  lemma DispatchWellFormed(env: Env, serverName: string, command: string)
    ensures WellFormed(Dispatch(env, serverName, command))
  {
    if command == "start" {
      StartWellFormed(env, serverName);
    } else if command == "stop" {
      StopWellFormed(env, serverName);
    } else if command == "reload" {
      ReloadWellFormed(env, serverName);
    } else if command == "status" {
      StatusWellFormed(env, serverName);
    }
  }

  /** Whether `run` starts a daemon itself: the probe failed and no socket
      path is in the way. */
  predicate Bootstraps(env: Env) {
    !DaemonPresent(env.daemon, env.successCode).ok && !env.daemon.sockExists
  }

  /** Whether `run` finds a socket path with no daemon answering behind it. */
  predicate SocketConflict(env: Env) {
    !DaemonPresent(env.daemon, env.successCode).ok && env.daemon.sockExists
  }

  /** What `run` does between the probe and the dispatch. */
  function Guard(env: Env): seq<Effect> {
    if DaemonPresent(env.daemon, env.successCode).ok then []
    else if !env.daemon.sockExists then [Bootstrap]
    else [Error(ConflictingSocket)]
  }

  /** The environment the dispatched operation sees: after a bootstrap the
      daemon is the one just started (`booted`), otherwise the one probed. */
  function DispatchEnv(env: Env, booted: Daemon): Env {
    if Bootstraps(env) then env.(daemon := booted) else env
  }

  /** What `run` does before dispatching: the probe, then the guard. */
  function Prefix(env: Env): seq<Effect> {
    DaemonPresent(env.daemon, env.successCode).trace + Guard(env)
  }

  /** One invocation with arguments `argv` (program name first). A wrong
      argument count is refused before the daemon is probed; otherwise the
      daemon is probed, the bootstrap or conflict is handled, the command is
      dispatched, and the result is true whatever the operation returned. */
  function Run(argv: seq<string>, env: Env, booted: Daemon): (o: Outcome)
    ensures |argv| != 3 ==> o == Outcome(false, [Error(Usage)])
    ensures |argv| == 3 ==> o.ok
  {
    if |argv| != 3 then
      Outcome(false, [Error(Usage)])
    else
      var probe := DaemonPresent(env.daemon, env.successCode);
      var op := Dispatch(DispatchEnv(env, booted), argv[1], argv[2]);
      Outcome(true, probe.trace + Guard(env) + op)
  }

  /** Filtering a three-argument `run` filters the prefix and the operation. */
  lemma RunFilter(argv: seq<string>, env: Env, booted: Daemon, p: Effect -> bool)
    requires |argv| == 3
    ensures Filter(Run(argv, env, booted).trace, p) ==
      Filter(Prefix(env), p) + Filter(Dispatch(DispatchEnv(env, booted), argv[1], argv[2]), p)
  {
    FilterConcat(Prefix(env), Dispatch(DispatchEnv(env, booted), argv[1], argv[2]), p);
  }

  /** Filtering the probe keeps those of its send, receive and close that
      satisfy `p`. */
  lemma ProbeFilter(d: Daemon, successCode: int, p: Effect -> bool)
    ensures var ping := PingMessage();
      Filter(DaemonPresent(d, successCode).trace, p) ==
        if Reachable(d)
        then (if p(Send(ping)) then [Send(ping)] else [])
             + (if p(Receive(d.reply(ping))) then [Receive(d.reply(ping))] else [])
             + (if p(Close) then [Close] else [])
        else []
  {
    if Reachable(d) {
      FilterTriple(Send(PingMessage()), Receive(d.reply(PingMessage())), Close);
    }
  }

  /** The prefix reads no pid, signals nothing and launches nothing. */
  lemma PrefixQuiet(env: Env)
    ensures Filter(Prefix(env), IsSignal) == []
    ensures Filter(Prefix(env), IsExec) == []
    ensures Filter(Prefix(env), IsReadPid) == []
  {
    var probe := DaemonPresent(env.daemon, env.successCode).trace;
    FilterConcat(probe, Guard(env), IsSignal);
    FilterConcat(probe, Guard(env), IsExec);
    FilterConcat(probe, Guard(env), IsReadPid);
    if Guard(env) != [] {
      FilterOne(Guard(env)[0]);
    }
  }

  /** The prefix sends only the `ping`, which is not a registration, and
      closes the probe's connection. */
  lemma PrefixWellFormed(env: Env)
    ensures Filter(Prefix(env), IsRegistration) == []
    ensures RegistrationsJustified(Prefix(env)) && ExchangesClosed(Prefix(env))
  {
    var probe := DaemonPresent(env.daemon, env.successCode).trace;
    var guard := Guard(env);
    ProbeWellFormed(env.daemon, env.successCode);
    assert Filter(Prefix(env), IsRegistration) == [] by {
      FilterConcat(probe, guard, IsRegistration);
      if guard != [] {
        FilterOne(guard[0]);
      }
    }
    assert forall i :: 0 <= i < |guard| ==> guard[i] == guard[0];
    JustifiedAppend(probe, guard);
    ClosedAppend(probe, guard);
  }

  /** The prefix holds one `ping` when the socket accepts a connection. */
  lemma PrefixPings(env: Env)
    ensures Filter(Prefix(env), IsPing) == if Reachable(env.daemon) then [Send(PingMessage())] else []
  {
    var probe := DaemonPresent(env.daemon, env.successCode).trace;
    ProbeFilter(env.daemon, env.successCode, IsPing);
    FilterConcat(probe, Guard(env), IsPing);
    if Guard(env) != [] {
      FilterOne(Guard(env)[0]);
    }
  }

  /** The prefix holds one bootstrap exactly when `run` bootstraps. */
  lemma PrefixBootstraps(env: Env)
    ensures Filter(Prefix(env), IsBootstrap) == if Bootstraps(env) then [Bootstrap] else []
  {
    var probe := DaemonPresent(env.daemon, env.successCode).trace;
    ProbeFilter(env.daemon, env.successCode, IsBootstrap);
    FilterConcat(probe, Guard(env), IsBootstrap);
    if DaemonPresent(env.daemon, env.successCode).ok {
      assert Guard(env) == [];
    } else if !env.daemon.sockExists {
      assert Guard(env) == [Bootstrap];
      FilterOne(Bootstrap);
    } else {
      assert Guard(env) == [Error(ConflictingSocket)];
      FilterOne(Error(ConflictingSocket));
    }
  }


  /** `run` sends at most one `ping`: exactly when it has three arguments and
      the daemon socket accepts a connection. */
  lemma RunProbesOnce(argv: seq<string>, env: Env, booted: Daemon)
    ensures Filter(Run(argv, env, booted).trace, IsPing) ==
      (if |argv| == 3 && Reachable(env.daemon) then [Send(PingMessage())] else [])
  {
    if |argv| == 3 {
      var op := Dispatch(DispatchEnv(env, booted), argv[1], argv[2]);
      RunFilter(argv, env, booted, IsPing);
      PrefixPings(env);
      DispatchWellFormed(DispatchEnv(env, booted), argv[1], argv[2]);
      assert forall i :: 0 <= i < |op| ==> !IsControllerEffect(op[i]);
      FilterNone(op, IsPing);
    } else {
      FilterOne(Error(Usage));
    }
  }

  /** `run` bootstraps a daemon once when the probe fails and the socket path
      is free, and never otherwise. */
  lemma RunBootstrapsOnlyWhenNeeded(argv: seq<string>, env: Env, booted: Daemon)
    ensures Filter(Run(argv, env, booted).trace, IsBootstrap) ==
      (if |argv| == 3 && Bootstraps(env) then [Bootstrap] else [])
  {
    if |argv| == 3 {
      var op := Dispatch(DispatchEnv(env, booted), argv[1], argv[2]);
      RunFilter(argv, env, booted, IsBootstrap);
      PrefixBootstraps(env);
      DispatchWellFormed(DispatchEnv(env, booted), argv[1], argv[2]);
      assert forall i :: 0 <= i < |op| ==> !IsControllerEffect(op[i]);
      FilterNone(op, IsBootstrap);
    } else {
      FilterOne(Error(Usage));
    }
  }

  /** One invocation sends at most one signal and launches at most once. */
  lemma RunSignalsAndLaunchesAtMostOnce(argv: seq<string>, env: Env, booted: Daemon)
    ensures |Filter(Run(argv, env, booted).trace, IsSignal)| <= 1
    ensures |Filter(Run(argv, env, booted).trace, IsExec)| <= 1
  {
    if |argv| == 3 {
      RunFilter(argv, env, booted, IsSignal);
      RunFilter(argv, env, booted, IsExec);
      PrefixQuiet(env);
    } else {
      FilterOne(Error(Usage));
    }
  }

  /** Across a whole invocation, an `add` follows only a launch that exited
      with 0, a `delete` only a delivered SIGTERM, and every connection is
      closed after its receive. */
  lemma RunRegistrationsJustified(argv: seq<string>, env: Env, booted: Daemon)
    ensures RegistrationsJustified(Run(argv, env, booted).trace)
    ensures ExchangesClosed(Run(argv, env, booted).trace)
  {
    if |argv| == 3 {
      var op := Dispatch(DispatchEnv(env, booted), argv[1], argv[2]);
      assert Run(argv, env, booted).trace == Prefix(env) + op;
      PrefixWellFormed(env);
      DispatchWellFormed(DispatchEnv(env, booted), argv[1], argv[2]);
      JustifiedAppend(Prefix(env), op);
      ClosedAppend(Prefix(env), op);
    }
  }

  /** An unknown command is reported after the probe and guard, and nothing
      is read, signalled or launched. */
  lemma RunUnknownCommand(argv: seq<string>, env: Env, booted: Daemon)
    requires |argv| == 3 && !KnownCommand(argv[2])
    ensures var o := Run(argv, env, booted);
      && o.trace[|o.trace| - 1] == Error(UnknownCommand)
      && Filter(o.trace, IsReadPid) == []
      && Filter(o.trace, IsSignal) == []
      && Filter(o.trace, IsExec) == []
  {
    var op := Dispatch(DispatchEnv(env, booted), argv[1], argv[2]);
    var t := Run(argv, env, booted).trace;
    assert op == [Error(UnknownCommand)];
    assert t == Prefix(env) + op;
    FilterOne(Error(UnknownCommand));
    PrefixQuiet(env);
    assert Filter(t, IsReadPid) == [] by { RunFilter(argv, env, booted, IsReadPid); }
    assert Filter(t, IsSignal) == [] by { RunFilter(argv, env, booted, IsSignal); }
    assert Filter(t, IsExec) == [] by { RunFilter(argv, env, booted, IsExec); }
  }

  /** Whether `t` ends with `s`. */
  predicate EndsWith(t: seq<Effect>, s: seq<Effect>) {
    |s| <= |t| && t[|t| - |s|..] == s
  }

  /** A socket path with no daemon behind it is reported, and the command is
      still dispatched, against the daemon that was probed. */
  lemma RunConflictStillDispatches(argv: seq<string>, env: Env, booted: Daemon)
    requires |argv| == 3 && SocketConflict(env)
    ensures var o := Run(argv, env, booted);
      var op := Dispatch(env, argv[1], argv[2]);
      && Error(ConflictingSocket) in o.trace
      && EndsWith(o.trace, op)
  {
    var probe := DaemonPresent(env.daemon, env.successCode).trace;
    var op := Dispatch(env, argv[1], argv[2]);
    var t := probe + [Error(ConflictingSocket)] + op;
    assert t[|probe|] == Error(ConflictingSocket);
    assert t[|t| - |op|..] == op;
  }

  /** With three arguments, whatever the probe found, `run` ends by running
      the operation the third argument names on the server the second names,
      against the daemon as it stands after the bootstrap, if any. */
  lemma RunDispatches(argv: seq<string>, env: Env, booted: Daemon)
    requires |argv| == 3
    ensures var t := Run(argv, env, booted).trace;
      var e := DispatchEnv(env, booted);
      && (argv[2] == "start" ==> EndsWith(t, Start(e, argv[1]).trace))
      && (argv[2] == "stop" ==> EndsWith(t, Stop(e, argv[1]).trace))
      && (argv[2] == "reload" ==> EndsWith(t, Reload(e, argv[1]).trace))
      && (argv[2] == "status" ==> EndsWith(t, Status(e, argv[1]).trace))
  {
    var op := Dispatch(DispatchEnv(env, booted), argv[1], argv[2]);
    var t := Run(argv, env, booted).trace;
    assert t == Prefix(env) + op;
    assert t[|t| - |op|..] == op;
  }
}
