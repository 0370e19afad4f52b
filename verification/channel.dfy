/** The control channel to the supervisor daemon: one request and one reply
    per connection. */
module Channel {
  import opened Php
  import opened Trace
  import opened Environment

  /** What an exchange gives back: `Unavailable` is the `false` returned before
      anything is sent; `Answered` carries the decoded reply, which may itself
      be missing. */
  datatype Reply = Unavailable | Answered(body: Body)

  datatype Exchange = Exchange(reply: Reply, trace: seq<Effect>)

  /** The effects of one exchange that reaches the daemon: the request, the
      single receive, and closing the connection. */
  function ExchangeTrace(d: Daemon, msg: Message): seq<Effect> {
    if Reachable(d) then [Send(msg), Receive(d.reply(msg)), Close] else []
  }

  /** Sends `msg` to the daemon and returns its decoded reply. A missing socket
      path or a failed connect ends the exchange before anything is sent; a
      connected exchange is closed after the single receive. */
  function NoticeDaemon(d: Daemon, msg: Message): (x: Exchange)
    ensures x.reply.Unavailable? <==> !Reachable(d)
    ensures x.reply.Answered? ==> x.reply.body == d.reply(msg)
    ensures x.trace == ExchangeTrace(d, msg)
    ensures Filter(x.trace, IsSend) == (if Reachable(d) then [Send(msg)] else [])
    ensures Filter(x.trace, IsSignal) == [] && Filter(x.trace, IsExec) == []
    ensures Filter(x.trace, IsReadPid) == []
    ensures Filter(x.trace, IsPing) == (if Reachable(d) && msg.kind == Ping then [Send(msg)] else [])
    ensures LinkedRegistrations(x.trace) && ExchangesClosed(x.trace)
    ensures msg.kind != Ping ==> NoControllerEffects(x.trace)
    ensures x.trace != [] ==> x.trace[0] == Send(msg)
  {
    if !d.sockExists then Exchange(Unavailable, [])
    else if !d.connects then Exchange(Unavailable, [])
    else
      var body := d.reply(msg);
      var t := [Send(msg), Receive(body), Close];
      FilterTriple(Send(msg), Receive(body), Close);
      Exchange(Answered(body), t)
  }

  /** A loose `$ret == false` on the exchange's result: `false`, a `null`
      decoding and an empty array all compare equal to `false`. */
  predicate LooseFalse(r: Reply) {
    r.Unavailable? || r.body.None? || r.body.value == map[]
  }

  /** The `ping` probe sent to find out whether a daemon is running. */
  function PingMessage(): Message {
    Message(Ping, "")
  }

  /** Whether a decoded reply carries the success code. */
  predicate Succeeded(body: Body, successCode: int) {
    body.Some? && "code" in body.value && body.value["code"] == successCode
  }

  /** The daemon counts as present exactly when it is reachable and its
      decoded reply to `ping` carries the success code. Only the probe is
      sent, and no process is signalled or launched. */
  function DaemonPresent(d: Daemon, successCode: int): (o: Outcome)
    ensures o.ok <==> Reachable(d) && Succeeded(d.reply(PingMessage()), successCode)
    ensures Filter(o.trace, IsSend) == (if Reachable(d) then [Send(PingMessage())] else [])
    ensures Filter(o.trace, IsSignal) == [] && Filter(o.trace, IsExec) == []
    ensures Filter(o.trace, IsReadPid) == []
    ensures o.trace == ExchangeTrace(d, PingMessage())
  {
    var x := NoticeDaemon(d, PingMessage());
    if LooseFalse(x.reply) then Outcome(false, x.trace)
    else if "code" in x.reply.body.value && x.reply.body.value["code"] == successCode then Outcome(true, x.trace)
    else Outcome(false, x.trace)
  }

  /** The probe sends no registration, and closes its connection after the
      receive. */
  lemma ProbeWellFormed(d: Daemon, successCode: int)
    ensures Filter(DaemonPresent(d, successCode).trace, IsRegistration) == []
    ensures RegistrationsJustified(DaemonPresent(d, successCode).trace)
    ensures ExchangesClosed(DaemonPresent(d, successCode).trace)
  {
    var x := NoticeDaemon(d, PingMessage());
    if Reachable(d) {
      FilterTriple(Send(PingMessage()), Receive(d.reply(PingMessage())), Close);
    }
  }
}
