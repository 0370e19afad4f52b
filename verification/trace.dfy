/** The observable effects of one controller invocation, and the vocabulary for
    stating properties about them. */
module Trace {
  import opened Php

  /** The signals the controller sends: SIGTERM to stop, SIGUSR1 to reload,
      and PHP's `SIG_DFL` (0) as the null liveness signal. */
  datatype Sig = SigTerm | SigUsr1 | SigDfl

  /** The `type` field of a control message: "ping", "add" or "delete". */
  datatype Kind = Ping | Add | Delete

  /** The request `{type, serverName}` written to the daemon socket. */
  datatype Message = Message(kind: Kind, serverName: string)

  /** The decoded reply: a JSON object whose fields are integers, or `None`
      when decoding does not give an array. */
  type Body = Option<map<string, int>>

  /** The operator-facing errors the controller reports. */
  datatype ErrorKind =
    | Usage
    | ConflictingSocket
    | UnknownCommand
    | UnknownServer
    | LaunchFailed(serverName: string)

  /** One effect on the outside world, with the answer the world gave. */
  datatype Effect =
    | ReadPid(pid: Option<string>)
    | Signal(pid: Option<string>, sig: Sig, delivered: bool)
    | Exec(cmd: string, exitCode: int)
    | Send(msg: Message)
    | Receive(body: Body)
    | Close
    | Bootstrap
    | Error(kind: ErrorKind)

  /** The boolean an operation returns, and what it did on the way. */
  datatype Outcome = Outcome(ok: bool, trace: seq<Effect>)

  predicate IsSignal(e: Effect) { e.Signal? }
  predicate IsExec(e: Effect) { e.Exec? }
  predicate IsSend(e: Effect) { e.Send? }
  predicate IsReadPid(e: Effect) { e.ReadPid? }

  /** The effects of `t` that satisfy `p`, in order. The length bound is
      not a property of interest, but it keeps the proofs about whole
      invocations cheap. */
  function Filter(t: seq<Effect>, p: Effect -> bool): (r: seq<Effect>)
    ensures |r| <= |t|
  {
    if t == [] then [] else (if p(t[0]) then [t[0]] else []) + Filter(t[1..], p)
  }

  lemma {:induction false} FilterConcat(a: seq<Effect>, b: seq<Effect>, p: Effect -> bool)
    ensures Filter(a + b, p) == Filter(a, p) + Filter(b, p)
  {
    if a == [] {
      assert a + b == b;
    } else {
      var head := if p(a[0]) then [a[0]] else [];
      assert (a + b)[1..] == a[1..] + b;
      FilterConcat(a[1..], b, p);
      assert Filter(a + b, p) == head + Filter(a[1..] + b, p);
    }
  }

  /** Filtering distributes over concatenation, for every predicate. */
  lemma FilterAppend(a: seq<Effect>, b: seq<Effect>)
    ensures forall p :: Filter(a + b, p) == Filter(a, p) + Filter(b, p)
  {
    forall p {
      FilterConcat(a, b, p);
    }
  }

  lemma FilterOne(e: Effect)
    ensures forall p :: Filter([e], p) == if p(e) then [e] else []
  {
    forall p ensures Filter([e], p) == if p(e) then [e] else [] {
      assert [e][1..] == [];
    }
  }

  lemma FilterPair(e: Effect, f: Effect)
    ensures forall p :: Filter([e, f], p) == (if p(e) then [e] else []) + (if p(f) then [f] else [])
  {
    assert [e, f] == [e] + [f];
    FilterAppend([e], [f]);
    FilterOne(e);
    FilterOne(f);
  }

  lemma FilterTriple(e: Effect, f: Effect, g: Effect)
    ensures forall p :: Filter([e, f, g], p) ==
                        (if p(e) then [e] else []) + (if p(f) then [f] else []) + (if p(g) then [g] else [])
  {
    assert [e, f, g] == [e, f] + [g];
    FilterAppend([e, f], [g]);
    FilterPair(e, f);
    FilterOne(g);
  }

  lemma {:induction false} FilterNone(t: seq<Effect>, p: Effect -> bool)
    requires forall i :: 0 <= i < |t| ==> !p(t[i])
    ensures Filter(t, p) == []
  {
    if t != [] {
      assert forall i :: 0 <= i < |t[1..]| ==> t[1..][i] == t[i + 1];
      FilterNone(t[1..], p);
    }
  }

  /** A registration message (`add` or `delete`) is sent only right after the
      effect that justifies it: a launch that exited with 0 for `add`, a
      delivered SIGTERM for `delete`. */
  predicate Justifies(prev: Effect, msg: Message) {
    match msg.kind
    case Ping => true
    case Add => prev.Exec? && prev.exitCode == 0
    case Delete => prev.Signal? && prev.sig == SigTerm && prev.delivered
  }

  predicate IsRegistration(e: Effect) {
    e.Send? && e.msg.kind != Ping
  }

  /** Every registration after the first effect is justified by the effect
      before it. */
  predicate LinkedRegistrations(t: seq<Effect>) {
    forall i :: 0 < i < |t| && IsRegistration(t[i]) ==> Justifies(t[i - 1], t[i].msg)
  }

  predicate RegistrationsJustified(t: seq<Effect>) {
    LinkedRegistrations(t) && (t != [] ==> !IsRegistration(t[0]))
  }

  /** Every message sent is followed by its receive and then by closing the
      connection. */
  predicate ExchangesClosed(t: seq<Effect>) {
    forall i :: 0 <= i < |t| && t[i].Send? ==>
      i + 2 < |t| && t[i + 1].Receive? && t[i + 2] == Close
  }

  /** A `ping`, the probe `run` sends before dispatching. */
  predicate IsPing(e: Effect) {
    e.Send? && e.msg.kind == Ping
  }

  /** The effects only `run` itself produces: the usage error, the `ping`
      probe, the daemon bootstrap and the conflicting-socket error. */
  predicate IsControllerEffect(e: Effect) {
    IsPing(e) || e.Bootstrap? || (e.Error? && (e.kind.Usage? || e.kind.ConflictingSocket?))
  }

  predicate IsBootstrap(e: Effect) { e.Bootstrap? }

  predicate NoControllerEffects(t: seq<Effect>) {
    forall i :: 0 <= i < |t| ==> !IsControllerEffect(t[i])
  }

  /** The shape every operation's trace keeps: registrations justified,
      exchanges closed, and none of `run`'s own effects. */
  predicate WellFormed(t: seq<Effect>) {
    RegistrationsJustified(t) && ExchangesClosed(t) && NoControllerEffects(t)
  }

  /** Two effects that send nothing and are not `run`'s own form a well
      formed trace. */
  lemma QuietPairWellFormed(e: Effect, f: Effect)
    requires !e.Send? && !f.Send?
    requires !IsControllerEffect(e) && !IsControllerEffect(f)
    ensures WellFormed([e, f])
  {
    var t := [e, f];
    forall i | 0 <= i < |t| ensures !t[i].Send? && !IsControllerEffect(t[i]) {
      if i == 0 {
        assert t[i] == e;
      } else {
        assert t[i] == f;
      }
    }
  }

  /** Appending `b` keeps registrations justified when `b` links its own
      registrations and one at the head of `b` is justified by the last
      effect of `a`. */
  lemma JustifiedAppend(a: seq<Effect>, b: seq<Effect>)
    requires RegistrationsJustified(a) && LinkedRegistrations(b)
    requires b != [] && IsRegistration(b[0]) ==> a != [] && Justifies(a[|a| - 1], b[0].msg)
    ensures RegistrationsJustified(a + b)
  {
    var t := a + b;
    forall i | 0 < i < |t| && IsRegistration(t[i])
      ensures Justifies(t[i - 1], t[i].msg)
    {
      if i < |a| {
        assert t[i] == a[i] && t[i - 1] == a[i - 1];
      } else if i == |a| {
        assert t[i] == b[0] && t[i - 1] == a[|a| - 1];
      } else {
        assert t[i] == b[i - |a|] && t[i - 1] == b[i - 1 - |a|];
      }
    }
    if a == [] {
      assert t == b;
    } else {
      assert t[0] == a[0];
    }
  }

  lemma ClosedAppend(a: seq<Effect>, b: seq<Effect>)
    requires ExchangesClosed(a) && ExchangesClosed(b)
    ensures ExchangesClosed(a + b)
  {
    var t := a + b;
    forall i | 0 <= i < |t| && t[i].Send?
      ensures i + 2 < |t| && t[i + 1].Receive? && t[i + 2] == Close
    {
      if i < |a| {
        assert t[i] == a[i] && t[i + 1] == a[i + 1] && t[i + 2] == a[i + 2];
      } else {
        assert t[i] == b[i - |a|] && t[i + 1] == b[i + 1 - |a|] && t[i + 2] == b[i + 2 - |a|];
      }
    }
  }

  lemma NoControllerEffectsAppend(a: seq<Effect>, b: seq<Effect>)
    requires NoControllerEffects(a) && NoControllerEffects(b)
    ensures NoControllerEffects(a + b)
  {
    forall i | 0 <= i < |a + b| ensures !IsControllerEffect((a + b)[i]) {
      if i < |a| {
        assert (a + b)[i] == a[i];
      } else {
        assert (a + b)[i] == b[i - |a|];
      }
    }
  }

  /** Appending `b` keeps a trace well formed when `b` is well formed past its
      first effect and a registration at the head of `b` is justified by the
      last effect of `a`. */
  lemma WellFormedAppend(a: seq<Effect>, b: seq<Effect>)
    requires WellFormed(a)
    requires LinkedRegistrations(b) && ExchangesClosed(b) && NoControllerEffects(b)
    requires b != [] && IsRegistration(b[0]) ==> a != [] && Justifies(a[|a| - 1], b[0].msg)
    ensures WellFormed(a + b)
  {
    JustifiedAppend(a, b);
    ClosedAppend(a, b);
    NoControllerEffectsAppend(a, b);
  }
}
