/** What one controller invocation observes of the world, as immutable values
    and oracles. */
module Environment {
  import opened Php
  import opened Trace

  /** One entry of the server list: every key may be unset. */
  datatype ServerConfig = ServerConfig(
    cli: Option<string>,
    iniPath: Option<string>,
    cwd: Option<string>,
    startScript: Option<string>)

  /** The supervisor daemon as seen through its socket path: whether the path
      exists, whether a connection succeeds, and the decoded reply to each
      message. */
  datatype Daemon = Daemon(
    sockExists: bool,
    connects: bool,
    reply: Message -> Body)

  /** The configured server list, the success code of the daemon protocol, the
      working directory, the contents of the single pid file, and oracles for
      signalling a process and for running a command (its exit status). */
  datatype Env = Env(
    servers: map<string, ServerConfig>,
    successCode: int,
    workingDir: string,
    pidFile: Option<string>,
    kill: (Option<string>, Sig) -> bool,
    exec: string -> int,
    daemon: Daemon)

  /** Whether an exchange with `d` gets as far as sending. */
  predicate Reachable(d: Daemon) {
    d.sockExists && d.connects
  }
}
