# Swoole monitor controller, modelled in Dafny

`SwooleMonitor` is the command-line controller of a small supervisor for
Swoole servers. It is invoked as `<program> <serverName> <command>`. It first
makes sure the supervisor daemon is running: it pings the daemon over a Unix
socket and starts one in-process when the ping fails and the socket path is
free. It then dispatches `start`, `stop`, `reload` or `status` for the named
server:

- `start` checks the pid record and launches the server's command unless the
  recorded process is alive.
- `stop` sends SIGTERM to the recorded process.
- `reload` sends SIGUSR1 to it.
- `status` probes it with the null signal.

A successful launch is registered with the daemon (`add`), and a successful
stop is deregistered (`delete`).

This project is a functional model of that controller. The world the
controller observes is an immutable value, `Environment.Env`, which holds:

- the server list;
- the success code;
- the current directory;
- the pid record;
- an oracle for `posix_kill`;
- an oracle for `exec`;
- the daemon: whether its socket path exists, whether it accepts a
  connection, and its decoded reply to each message.

Every operation returns its boolean together with a trace of effects
(`Trace.Effect`). Each effect records the answer the world gave: whether the
signal was delivered, the launch's exit code, the reply received. The
properties are stated over these traces, mostly through `Trace.Filter`, which
selects the effects of one kind in order:

- how many signals, launches and messages an operation causes;
- which registrations (`add`, `delete`) may follow which effects
  (`Trace.RegistrationsJustified`);
- that every connection is closed after its single receive
  (`Trace.ExchangesClosed`);
- that the per-server operations never produce the controller's own effects
  (`Trace.NoControllerEffects`).

PHP's loose comparisons are modelled explicitly:

- `Php.Falsy` is both `empty($s)` and `$s == false` on a string: the string
  is "" or "0".
- An unset array key is `Php.Option.None`.

The model keeps these quirks of the code as written:

- Without `iniPath`, the command has two spaces before the directory.
- `buildCommand` tests `cli`, not `cwd`, for emptiness before defaulting
  `cwd`. So `posix_getcwd()` is used only when `cwd` is unset, and a `cwd` of
  "" or "0" is kept.
- `start` tests the pid loosely (`!=`), while `stop` and `reload` test it
  strictly (`===`). A pid file holding "" or "0" therefore makes `start`
  launch without a liveness check. `stop` and `reload` still hand such a
  record to `posix_kill`. For "0" this signals pid 0; for "", see the
  `posix_kill` line under "Left out".
- `status` does not check the record at all.
- A socket path with no live daemon behind it is reported, and the command
  is still dispatched.
- There is one pid file for every server name (line 12). The pid record is
  a single slot, and `OneRecordForAllServers` states the consequence.

The modules follow the program:

- `Php`: loose truthiness.
- `Trace`: effects and trace predicates.
- `Environment`: the observed world.
- `Command`: `buildCommand`.
- `Channel`: `noticeDaemonServer` and `existGodDaemonServer`.
- `Lifecycle`: `getMasterPid`, `status`, `stop`, `reload`, `startServer` and
  `start`.
- `Monitor`: `run`.

## Model

| member | source | states |
|---|---|---|
| Command.BuildCommand | App/SwooleMonitor.php:140-154 | no command exactly when `cli` is unset, "" or "0"; a built command is never loosely false, starts with `cli`, has '-' right after the executable and its space if and only if a non-empty `iniPath` is given, and ends with `/` and the start script (an unset script contributes nothing) |
| Command.CommandLayout | App/SwooleMonitor.php:142-153 | the exact layout `cli -c ini dir/script`, or `cli` followed by two spaces when there is no ini file; `dir` is `cwd` whenever it is set, otherwise the current directory |
| Command.FalsyIniIgnored | App/SwooleMonitor.php:143 | an `iniPath` of "" or "0" builds the same command as no `iniPath` |
| Command.WorkingDirUsedOnlyWhenCwdUnset | App/SwooleMonitor.php:149-151 | with `cwd` set, the current directory never changes the command; with `cwd` unset, different current directories give different commands |
| Command.SynthesisExample | App/SwooleMonitor.php:140-154 | `/usr/bin/php`, ini `/etc/php.ini`, cwd `/srv/web1` and script `server.php` give `/usr/bin/php -c /etc/php.ini /srv/web1/server.php` |
| Channel.NoticeDaemon | App/SwooleMonitor.php:98-116 | no answer if and only if the socket path is missing or the connect fails, and then nothing is sent; otherwise exactly one send of the message, one receive and a close, and the answer is the daemon's decoded reply; nothing is signalled, launched or read |
| Channel.DaemonPresent | App/SwooleMonitor.php:64-76 | the daemon counts as present if and only if it is reachable and its decoded reply to `ping` has `code` equal to the success code; only the ping is sent, at most once, and nothing is signalled or launched |
| Channel.ProbeWellFormed | App/SwooleMonitor.php:64-76 | the probe sends no registration (`add` or `delete`), registrations are justified, and its connection is closed after the receive |
| Lifecycle.GetMasterPid | App/SwooleMonitor.php:156-167 | the result is the content of the single pid slot, whatever the server name, and `None` (PHP's `false`) when there is no pid file; `Lifecycle.OneRecordForAllServers` states the consequence for the operations |
| Lifecycle.Status | App/SwooleMonitor.php:210-225 | exactly one null signal, sent to whatever was read from the pid record, including a missing record; the result is whether it was delivered; no launch and no message |
| Lifecycle.Stop | App/SwooleMonitor.php:169-187 | with no pid record: false, and the record is read with nothing else; otherwise exactly one SIGTERM, and the result is whether it was delivered; a `delete` is sent only after a delivered SIGTERM and only to a reachable daemon; no launch |
| Lifecycle.Reload | App/SwooleMonitor.php:189-208 | with no pid record: false, and the record is read with nothing else; otherwise exactly one SIGUSR1, and the result is whether it was delivered; the daemon is never told, and nothing is launched |
| Lifecycle.StartServer | App/SwooleMonitor.php:118-138 | an entry without an executable returns false with no effect; otherwise exactly one launch of the built command; true if and only if it exited with 0; one `add` to a reachable daemon after a successful launch and none otherwise; no signal |
| Lifecycle.Launch | App/SwooleMonitor.php:126-137 | one launch; a non-zero exit code gives false, ends with the launch-failure error and sends nothing; exit 0 gives true and sends one `add` when the daemon is reachable |
| Lifecycle.StartCheck | App/SwooleMonitor.php:87-93 | the pid record is read first; the null signal is sent only when the record is loosely true; the server counts as running if and only if that signal is delivered |
| Lifecycle.Start | App/SwooleMonitor.php:78-96 | an unknown server returns false with only the error: no pid read, signal, launch or message; a live recorded process returns true with no launch and no message; otherwise exactly one launch attempt when a command can be built, and true if and only if it exited with 0; an `add` only after a successful launch |
| Lifecycle.StatusWellFormed | App/SwooleMonitor.php:210-225 | the status trace is well formed: registrations justified, exchanges closed, none of `run`'s own effects |
| Lifecycle.StopWellFormed | App/SwooleMonitor.php:169-187 | in a stop trace, the `delete` directly follows a delivered SIGTERM, and its connection is closed after the receive |
| Lifecycle.ReloadWellFormed | App/SwooleMonitor.php:189-208 | the reload trace is well formed: registrations justified, exchanges closed, none of `run`'s own effects |
| Lifecycle.LaunchWellFormed | App/SwooleMonitor.php:126-137 | in a launch trace, the `add` directly follows a launch that exited with 0, and its connection is closed |
| Lifecycle.StartServerWellFormed | App/SwooleMonitor.php:118-138 | the same holds for the whole of `startServer` |
| Lifecycle.StartCheckWellFormed | App/SwooleMonitor.php:87-93 | the pre-launch check's trace is well formed: registrations justified, exchanges closed, none of `run`'s own effects |
| Lifecycle.StartWellFormed | App/SwooleMonitor.php:78-96 | in a start trace, every `add` directly follows a successful launch and every connection is closed |
| Lifecycle.OneRecordForAllServers | App/SwooleMonitor.php:12 | the pid record is one file for every server: status and reload give identical outcomes for any two names, and stop signals the same process with the same result |
| Lifecycle.LooseStartStrictStop | App/SwooleMonitor.php:88 | with a pid record of "" or "0", `start` sends no signal and launches the command, while `stop` still hands that record to `posix_kill` with SIGTERM, and its result is whether that call reports delivery |
| Lifecycle.SecondStartDoesNotRelaunch | App/SwooleMonitor.php:87-95 | a second `start` that finds a live process in the pid record returns true without launching; the two starts launch exactly once when the first found nothing running and the entry names an executable, and not at all otherwise |
| Monitor.Dispatch | App/SwooleMonitor.php:43-59 | an unknown command is reported and does nothing else; any command sends at most one signal and makes at most one launch |
| Monitor.DispatchWellFormed | App/SwooleMonitor.php:43-59 | every dispatched operation's trace is well formed: registrations justified, exchanges closed, and none of `run`'s own effects |
| Monitor.Run | App/SwooleMonitor.php:26-62 | a wrong argument count returns false, with the usage error as its only effect and no probe; any other invocation returns true, whatever the operation returned |
| Monitor.PrefixQuiet | App/SwooleMonitor.php:34-41 | the probe and bootstrap phase reads no pid, sends no signal and launches nothing |
| Monitor.PrefixPings | App/SwooleMonitor.php:35 | that phase sends one `ping` exactly when the daemon socket accepts a connection |
| Monitor.PrefixBootstraps | App/SwooleMonitor.php:35-41 | that phase bootstraps exactly when the probe fails and the socket path is absent |
| Monitor.PrefixWellFormed | App/SwooleMonitor.php:34-41 | that phase sends no registration (`add` or `delete`), its registrations are trivially justified, and the probe's connection is closed after the receive |
| Monitor.RunProbesOnce | App/SwooleMonitor.php:29-35 | a whole invocation sends a `ping` exactly once when it has three arguments and the socket accepts a connection, and never otherwise |
| Monitor.RunBootstrapsOnlyWhenNeeded | App/SwooleMonitor.php:35-41 | a whole invocation bootstraps the daemon once if and only if it has three arguments, the probe fails and the socket path is absent |
| Monitor.RunSignalsAndLaunchesAtMostOnce | App/SwooleMonitor.php:26-62 | a whole invocation sends at most one signal and makes at most one launch |
| Monitor.RunRegistrationsJustified | App/SwooleMonitor.php:26-62 | across a whole invocation, every `add` directly follows a launch that exited with 0, every `delete` directly follows a delivered SIGTERM, and every message is followed by its receive and a close |
| Monitor.RunUnknownCommand | App/SwooleMonitor.php:57-58 | an unknown command ends the trace with its error, and no pid is read, no signal sent and nothing launched |
| Monitor.RunDispatches | App/SwooleMonitor.php:43-56 | with three arguments, the trace ends with the trace of the operation the command names (`start`, `stop`, `reload` or `status`), run on the named server against the daemon as it stands after any bootstrap |
| Monitor.RunConflictStillDispatches | App/SwooleMonitor.php:38-46 | a socket path with no daemon answering is reported, and the command is still dispatched against the daemon that was probed |

## Left out

- Socket I/O, `exec`, `posix_kill`, `posix_getcwd` and reading the pid file are oracles in `Environment.Env`. Their answers are parameters, and the traces record them. A failing `posix_getcwd` is not modelled, since the oracle always gives a string.
- JSON encoding and decoding: a reply is its decoded value. It is a map of integer fields, or `None` when decoding gives no array. Reply fields that are not integers are not modelled, so the loose `==` against the success code is plain equality.
- `Error::SUCCESS` is the `successCode` field of the environment. Its value is defined outside this file.
- The daemon started by `new SwooleServer()` (line 37) is not modelled. It appears as a `Bootstrap` effect, and the daemon it leaves behind is the `booted` parameter of `Monitor.Run`.
- Log lines, `SwooleNotice::showMessage` output and the informational `showError` lines 132 and 135 are left out. The operator-facing errors are `Error` effects: usage, conflicting socket, unknown command, unknown server and failed launch.
- The `getInstance` singleton (lines 15-24) is left out, because it holds no state besides the constant pid path.
- PHP's conversion of the pid to an integer for `posix_kill` is left to the kill oracle, which receives the record as read. PHP turns both a missing record (`false`) and "0" into pid 0, which signals the caller's own process group. So with no pid file, `status` as written usually reports the server as running, and `stop` on a record of "0" sends SIGTERM to the controller's own group. A record that is not numeric, "" included, reaches no signal at all. On PHP 5 and 7, `posix_kill` warns and returns false, which the oracle can answer. On PHP 8 it throws a TypeError, which ends `run` before it returns; that exception path is not modelled. The model allows any oracle answer for these pids, so no contract depends on them.
- Concurrency between controller invocations, and the daemon's own behaviour, are outside the model.
- `Monitor.Run`: its own contract states only the result and the usage path. The probe and bootstrap promises are stated by `Monitor.RunProbesOnce` and `Monitor.RunBootstrapsOnlyWhenNeeded`. Dispatch is stated by `Monitor.RunDispatches`, `Monitor.RunUnknownCommand` and `Monitor.RunConflictStillDispatches`. Trace shape is stated by `Monitor.RunSignalsAndLaunchesAtMostOnce` and `Monitor.RunRegistrationsJustified`.
