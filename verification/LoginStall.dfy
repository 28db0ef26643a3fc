/** The login over the connection as it is written: the server's events reach the client only once its
    connection has written them, and a prompt is a lone event, which the connection never writes. */
module LoginStall {
  import opened ChatClient
  import L = Login
  import W = WatchProtocol

  /** The login and the server's end of the client's connection. `handed` of the server's events have been
      given to the connection, and `received` of them taken by the client. */
  datatype Joint = Joint(login: L.Login, wire: W.System, handed: nat, received: nat)

  datatype Step = OfLogin(login: L.Step) | OfWire(wire: W.Step)

  predicate HandsOver(step: W.Step) { step.UserCall? && step.message.QueueEvent? }

  /** The connection is given just the events the server has sent, in order; the client receives only what
      has been written; and nobody closes the connection. */
  ghost predicate Enabled(j: Joint, step: Step) {
    match step
    case OfLogin(s) => L.Enabled(j.login, s) && L.Safe(j.login, s) && (s.AppReceives? ==> j.received < |j.wire.sent|)
    case OfWire(s) =>
      && W.Enabled(j.wire, s)
      && (s.UserCall? ==> !s.message.Close?)
      && (HandsOver(s) ==> j.handed < j.received + |j.login.down|)
  }

  ghost function Next(j: Joint, step: Step): Joint
    requires Enabled(j, step)
  {
    match step
    case OfLogin(s) => j.(login := L.Next(j.login, s), received := j.received + if s.AppReceives? then 1 else 0)
    case OfWire(s) => j.(wire := W.Next(j.wire, s), handed := j.handed + if HandsOver(s) then 1 else 0)
  }

  ghost predicate Run(j: Joint, steps: seq<Step>, k: Joint)
    decreases |steps|
  {
    if steps == [] then j == k
    else Enabled(j, steps[0]) && Run(Next(j, steps[0]), steps[1..], k)
  }

  predicate Initial(j: Joint) { L.Initial(j.login) && j.wire == W.Initial() && j.handed == 0 && j.received == 0 }

  ghost predicate StallInv(j: Joint, phase: L.Phase) {
    && L.At(j.login, phase) && j.login.app.state == Connected && j.received == 0
    && j.handed <= |j.login.down|
    && W.Inv(j.wire) && W.LoneInv(j.wire)
    && W.QueuedEvents(j.wire.inbox) + |j.wire.accepted| <= j.handed
  }

  /** Until the client has had its first prompt there is no other event for it. */
  lemma FirstPromptIsAlone(w: L.Login, phase: L.Phase)
    requires L.At(w, phase) && w.app.state == Connected
    ensures |w.down| <= 1 && (w.down == [] || w.down == [AskUsername])
  {
  }

  lemma StillConnected(w: L.Login, phase: L.Phase, step: L.Step)
    requires L.At(w, phase) && w.app.state == Connected && L.Enabled(w, step) && L.Safe(w, step) && !step.AppReceives?
    ensures L.Next(w, step).app.state == Connected && |L.Next(w, step).down| >= |w.down|
  {
  }

  lemma StepStalls(j: Joint, phase: L.Phase, step: Step) returns (next: L.Phase)
    requires StallInv(j, phase) && Enabled(j, step)
    ensures StallInv(Next(j, step), next)
  {
    hide L.At, W.Inv, W.LoneInv;
    next := phase;
    FirstPromptIsAlone(j.login, phase);
    NothingSent(j.wire);
    match step
    case OfLogin(s) =>
      StillConnected(j.login, phase, s);
      next := L.StepKeepsPhase(j.login, phase, s);
    case OfWire(s) =>
      W.LoneStep(j.wire, s);
      W.StepKeepsInv(j.wire, s);
  }

  lemma NothingSent(s: W.System)
    requires W.LoneInv(s)
    ensures s.sent == []
  {
  }

  lemma {:induction false} RunStalls(j: Joint, phase: L.Phase, steps: seq<Step>, k: Joint) returns (next: L.Phase)
    requires StallInv(j, phase) && Run(j, steps, k)
    ensures StallInv(k, next)
    decreases |steps|
  {
    hide StallInv;
    next := phase;
    if steps != [] {
      next := StepStalls(j, phase, steps[0]);
      next := RunStalls(Next(j, steps[0]), next, steps[1..], k);
    }
  }

  /** No login gets past its first prompt: in every run of the two together the client receives nothing
      and stays as it was when it connected, however long the run. */
  lemma LoginStallsAtFirstPrompt(j: Joint, steps: seq<Step>, k: Joint)
    requires Initial(j) && Run(j, steps, k)
    ensures k.received == 0 && k.wire.sent == []
    ensures k.login.app.state == Connected && (k.login.down == [] || k.login.down == [AskUsername])
  {
    W.InitialInv();
    assert StallInv(j, L.Opening);
    var phase := RunStalls(j, L.Opening, steps, k);
    FirstPromptIsAlone(k.login, phase);
  }
}
