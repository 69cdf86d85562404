/** The supervisor's command handlers over its status and service maps, and every run of them. */
module Supervisor {
  import opened Common
  import opened Services

  datatype ServiceId = GatewayId | MosquittoId | MqttClientId | CloudGatewayId | GatewayMqttId

  datatype Status =
    | Unavailable
    | Stopped
    | Starting
    | Running(pid: nat)
    | Failed(reason: ServiceError)

  datatype Error =
    | NotInstalled | AlreadyUp | AlreadyStarting | AlreadyStopped | NotAvailable | NotRegistered
    | FromService(error: ServiceError)

  /**
   A boxed service together with a log of what was done to it: how often `start` was called,
   how many tasks it spawned, and the pid its latest successful start returned.
   */
  datatype Slot = Slot(service: Service, startCalls: nat, tasks: nat, lastPid: Option<nat>)

  datatype State = State(services: map<ServiceId, Slot>, statuses: map<ServiceId, Status>)

  datatype Registration = Registration(id: ServiceId, service: Service, available: bool)

  datatype Command =
    | Start(id: ServiceId, world: World)
    | Stop(id: ServiceId)
    | Restart(id: ServiceId, world: World)
    | GetStatus

  type Reply = Result<(), Error>

  function Register(s: State, r: Registration): State {
    State(s.services[r.id := Slot(r.service, 0, 0, None)],
          s.statuses[r.id := if r.available then Stopped else Unavailable])
  }

  function RegisterAll(regs: seq<Registration>): State {
    if regs == [] then State(map[], map[]) else Register(RegisterAll(Front(regs)), Last(regs))
  }

  function StartSlot(slot: Slot, w: World): Slot {
    var st := StartService(slot.service, w);
    Slot(st.service,
         slot.startCalls + 1,
         slot.tasks + (if st.task then 1 else 0),
         if st.result.Ok? then Some(st.result.value) else slot.lastPid)
  }

  function StopSlot(slot: Slot): Slot {
    slot.(service := StopService(slot.service).0)
  }

  function HandleStart(s: State, id: ServiceId, w: World): (State, Reply) {
    if id !in s.statuses then (s, Err(NotRegistered))
    else match s.statuses[id] {
      case Unavailable => (s, Err(NotInstalled))
      case Running(_) => (s, Err(AlreadyUp))
      case Starting => (s, Err(AlreadyStarting))
      case _ =>
        var s1 := s.(statuses := s.statuses[id := Starting]);
        if id !in s.services then (s1, Err(NotRegistered))
        else
          var s2 := s1.(services := s.services[id := StartSlot(s.services[id], w)]);
          match StartService(s.services[id].service, w).result
          case Ok(pid) => (s2.(statuses := s2.statuses[id := Running(pid)]), Ok(()))
          case Err(e) => (s2.(statuses := s2.statuses[id := Failed(e)]), Err(FromService(e)))
    }
  }

  function HandleStop(s: State, id: ServiceId): (State, Reply) {
    if id in s.statuses && s.statuses[id].Stopped? then (s, Err(AlreadyStopped))
    else if id in s.statuses && s.statuses[id].Unavailable? then (s, Err(NotAvailable))
    else if id !in s.services then (s, Err(NotRegistered))
    else
      var s1 := s.(services := s.services[id := StopSlot(s.services[id])]);
      match StopService(s.services[id].service).1
      case Ok(_) => (s1.(statuses := s1.statuses[id := Stopped]), Ok(()))
      case Err(e) => (s1, Err(FromService(e)))
  }

  function HandleRestart(s: State, id: ServiceId, w: World): (State, Reply) {
    if id in s.statuses && s.statuses[id].Running?
    then HandleStart(HandleStop(s, id).0, id, w)
    else HandleStart(s, id, w)
  }

  function Step(s: State, c: Command): State {
    match c
    case Start(id, w) => HandleStart(s, id, w).0
    case Stop(id) => HandleStop(s, id).0
    case Restart(id, w) => HandleRestart(s, id, w).0
    case GetStatus => s
  }

  datatype Answer = Done(reply: Reply) | Report(statuses: map<ServiceId, Status>)

  function AnswerTo(s: State, c: Command): Answer {
    match c
    case Start(id, w) => Done(HandleStart(s, id, w).1)
    case Stop(id) => Done(HandleStop(s, id).1)
    case Restart(id, w) => Done(HandleRestart(s, id, w).1)
    case GetStatus => Report(s.statuses)
  }

  /** Services are registered, then the loop serves commands one after the other. */
  function Run(regs: seq<Registration>, cmds: seq<Command>): State {
    if cmds == [] then RegisterAll(regs) else Step(Run(regs, Front(cmds)), Last(cmds))
  }

  predicate AllNew(regs: seq<Registration>) {
    forall i :: 0 <= i < |regs| ==> regs[i].service.New()
  }

  // ── What the two maps say about each other ───────────────────────────────────────────

  /**
   When a failed service still holds what it set up before failing, read off the reason: a
   gateway stores its sender before TLS can fail, and from then on refuses to start again.
   */
  predicate FailedHolding(service: Service, reason: ServiceError) {
    service.Gateway? && reason in {TlsFailed, AlreadyRunning}
  }

  predicate SlotOk(slot: Slot, status: Status) {
    && slot.service.Whole()
    && !status.Starting?
    && (status.Running? ==> slot.service.Holds() && slot.lastPid == Some(status.pid))
    && (status.Running? && slot.service.Mosquitto? ==> slot.service.child == Some(status.pid))
    && (status.Stopped? || status.Unavailable? ==> !slot.service.Holds())
    && (status.Failed? ==> (slot.service.Holds() <==> FailedHolding(slot.service, status.reason)))
    && (status.Failed? && slot.service.Holds() ==> slot.service.tls)
    && (status.Unavailable? ==> slot.startCalls == 0)
    && (slot.service.TakeOnce() ==>
          && slot.tasks <= 1
          && (slot.service.Unused() ==> slot.tasks == 0 && !status.Running?)
          && (slot.service.Holds() ==> status.Running?))
  }

  predicate Agrees(s: State) {
    && s.services.Keys == s.statuses.Keys
    && (forall id :: id in s.services ==> SlotOk(s.services[id], s.statuses[id]))
  }

  lemma {:induction false} RegistrationAgrees(regs: seq<Registration>)
    requires AllNew(regs)
    ensures Agrees(RegisterAll(regs))
  {
    if regs != [] {
      assert forall i :: 0 <= i < |Front(regs)| ==> Front(regs)[i] == regs[i];
      RegistrationAgrees(Front(regs));
      assert regs[|regs| - 1].service.New();
    }
  }

  /** Starting a slot whose status allows it. */
  lemma StartKeepsSlot(slot: Slot, status: Status, w: World)
    requires SlotOk(slot, status) && (status.Stopped? || status.Failed?)
    ensures var r := StartService(slot.service, w).result;
            SlotOk(StartSlot(slot, w), if r.Ok? then Running(r.value) else Failed(r.error))
  {
  }

  lemma StopKeepsSlot(slot: Slot, status: Status)
    requires SlotOk(slot, status) && (status.Running? || status.Failed?)
    ensures SlotOk(StopSlot(slot), if StopService(slot.service).1.Ok? then Stopped else status)
    ensures status.Running? ==> StopService(slot.service).1.Ok?
    ensures !StopSlot(slot).service.Holds()
  {
  }

  lemma HandleStartAgrees(s: State, id: ServiceId, w: World)
    requires Agrees(s)
    ensures Agrees(HandleStart(s, id, w).0)
  {
    if id in s.statuses && (s.statuses[id].Stopped? || s.statuses[id].Failed?) {
      StartKeepsSlot(s.services[id], s.statuses[id], w);
    }
  }

  lemma HandleStopAgrees(s: State, id: ServiceId)
    requires Agrees(s)
    ensures Agrees(HandleStop(s, id).0)
    ensures id in s.statuses && s.statuses[id].Running? ==> HandleStop(s, id).1.Ok?
  {
    if id in s.statuses && (s.statuses[id].Running? || s.statuses[id].Failed?) {
      StopKeepsSlot(s.services[id], s.statuses[id]);
    }
  }

  lemma StepAgrees(s: State, c: Command)
    requires Agrees(s)
    ensures Agrees(Step(s, c))
  {
    match c
    case Start(id, w) => HandleStartAgrees(s, id, w);
    case Stop(id) => HandleStopAgrees(s, id);
    case Restart(id, w) =>
      HandleStopAgrees(s, id);
      HandleStartAgrees(s, id, w);
      HandleStartAgrees(HandleStop(s, id).0, id, w);
    case GetStatus =>
  }

  lemma {:induction false} RunAgrees(regs: seq<Registration>, cmds: seq<Command>)
    requires AllNew(regs)
    ensures Agrees(Run(regs, cmds))
  {
    if cmds == [] {
      RegistrationAgrees(regs);
    } else {
      RunAgrees(regs, Front(cmds));
      StepAgrees(Run(regs, Front(cmds)), Last(cmds));
    }
  }

  /**
   In every run: the maps have the same keys; Running means the service holds what a stop
   needs, and its pid is the one its latest successful start returned, for Mosquitto that of the
   child it keeps; Stopped and Unavailable
   mean it holds nothing; a failed service holds something exactly if it is a gateway, with TLS,
   whose reason is that TLS failed or that it believes it is running; nobody ever sees Starting;
   the start of an unavailable service was never called.
   */
  lemma StatusesAgreeWithServices(regs: seq<Registration>, cmds: seq<Command>, id: ServiceId)
    requires AllNew(regs)
    ensures var s := Run(regs, cmds);
            && (id in s.statuses <==> id in s.services)
            && (id in s.statuses ==>
                  var slot, status := s.services[id], s.statuses[id];
                  && !status.Starting?
                  && (status.Running? ==> slot.service.Holds() && slot.lastPid == Some(status.pid))
                  && (status.Running? && slot.service.Mosquitto? ==> slot.service.child == Some(status.pid))
                  && (status.Stopped? || status.Unavailable? ==> !slot.service.Holds())
                  && (status.Failed? ==> (slot.service.Holds() <==> FailedHolding(slot.service, status.reason)))
                  && (status.Failed? && slot.service.Holds() ==> slot.service.tls)
                  && (status.Unavailable? ==> slot.startCalls == 0))
  {
    RunAgrees(regs, cmds);
  }

  /** Stopping a running service never fails, so the error a restart ignores never occurs. */
  lemma StoppingRunningSucceeds(regs: seq<Registration>, cmds: seq<Command>, id: ServiceId)
    requires AllNew(regs) && id in Run(regs, cmds).statuses && Run(regs, cmds).statuses[id].Running?
    ensures var s := Run(regs, cmds);
            var (t, reply) := HandleStop(s, id);
            reply == Ok(()) && t.statuses == s.statuses[id := Stopped] && !t.services[id].service.Holds()
  {
    RunAgrees(regs, cmds);
    var s := Run(regs, cmds);
    HandleStopAgrees(s, id);
    StopKeepsSlot(s.services[id], s.statuses[id]);
  }

  // ── Unavailable services ─────────────────────────────────────────────────────────────

  lemma StepKeepsUnavailable(s: State, c: Command, id: ServiceId)
    requires id in s.statuses && s.statuses[id].Unavailable?
    ensures id in Step(s, c).statuses && Step(s, c).statuses[id].Unavailable?
    ensures id in s.services ==> id in Step(s, c).services && Step(s, c).services[id] == s.services[id]
  {
    if c.Restart? && c.id != id {
      var t := HandleStop(s, c.id).0;
      assert id in t.statuses && t.statuses[id].Unavailable?;
    }
  }

  /** An unavailable service stays so, and nothing is ever done to it. */
  lemma {:induction false} UnavailableStays(regs: seq<Registration>, cmds: seq<Command>, id: ServiceId)
    requires id in RegisterAll(regs).statuses && RegisterAll(regs).statuses[id].Unavailable?
    ensures id in Run(regs, cmds).statuses && Run(regs, cmds).statuses[id].Unavailable?
    ensures id in RegisterAll(regs).services ==>
              id in Run(regs, cmds).services && Run(regs, cmds).services[id] == RegisterAll(regs).services[id]
  {
    if cmds != [] {
      UnavailableStays(regs, Front(cmds), id);
      StepKeepsUnavailable(Run(regs, Front(cmds)), Last(cmds), id);
    }
  }

  // ── Take-once services ───────────────────────────────────────────────────────────────

  /** Started before (or tried to) and not running now. */
  predicate Spent(s: State, id: ServiceId) {
    && id in s.services && id in s.statuses
    && s.services[id].service.TakeOnce() && !s.services[id].service.Unused()
    && !s.statuses[id].Running?
  }

  predicate SpentSame(s: State, t: State, id: ServiceId) {
    Spent(s, id) && Spent(t, id) && t.services[id].tasks == s.services[id].tasks
  }

  lemma StartKeepsSpent(s: State, other: ServiceId, w: World, id: ServiceId)
    requires Agrees(s) && Spent(s, id)
    ensures SpentSame(s, HandleStart(s, other, w).0, id)
  {
    assert SlotOk(s.services[id], s.statuses[id]);
  }

  lemma StopKeepsSpent(s: State, other: ServiceId, id: ServiceId)
    requires Agrees(s) && Spent(s, id)
    ensures SpentSame(s, HandleStop(s, other).0, id)
  {
    assert SlotOk(s.services[id], s.statuses[id]);
  }

  lemma StepKeepsSpent(s: State, c: Command, id: ServiceId)
    requires Agrees(s) && Spent(s, id)
    ensures SpentSame(s, Step(s, c), id)
  {
    match c
    case Start(other, w) => StartKeepsSpent(s, other, w, id);
    case Stop(other) => StopKeepsSpent(s, other, id);
    case Restart(other, w) =>
      HandleStopAgrees(s, other);
      StopKeepsSpent(s, other, id);
      StartKeepsSpent(s, other, w, id);
      StartKeepsSpent(HandleStop(s, other).0, other, w, id);
    case GetStatus =>
  }

  lemma {:induction false} SpentStaysSpent(regs: seq<Registration>, cmds: seq<Command>, more: seq<Command>, id: ServiceId)
    requires AllNew(regs) && Spent(Run(regs, cmds), id)
    ensures Spent(Run(regs, cmds + more), id)
    ensures Run(regs, cmds + more).services[id].tasks == Run(regs, cmds).services[id].tasks
  {
    if more == [] {
      assert cmds + more == cmds;
    } else {
      SpentStaysSpent(regs, cmds, Front(more), id);
      assert Front(cmds + more) == cmds + Front(more) && Last(cmds + more) == Last(more);
      RunAgrees(regs, cmds + Front(more));
      StepKeepsSpent(Run(regs, cmds + Front(more)), Last(more), id);
    }
  }

  /**
   A take-once service spawns its connection work at most once, and once it has been Running
   and is not any more, it is never Running again, whatever commands follow.
   */
  lemma TakeOnceRunsOnce(regs: seq<Registration>, cmds: seq<Command>, then1: seq<Command>, then2: seq<Command>, id: ServiceId)
    requires AllNew(regs) && id in Run(regs, cmds).services && Run(regs, cmds).services[id].service.TakeOnce()
    ensures Run(regs, cmds).services[id].tasks <= 1
    ensures var r, s, t := Run(regs, cmds), Run(regs, cmds + then1), Run(regs, cmds + then1 + then2);
            && id in r.statuses && id in s.statuses && id in t.statuses
            && (r.statuses[id].Running? && !s.statuses[id].Running? ==> !t.statuses[id].Running?)
  {
    RunAgrees(regs, cmds);
    RunAgrees(regs, cmds + then1);
    RunAgrees(regs, cmds + then1 + then2);
    SlotsPersist(regs, cmds, then1, id);
    SlotsPersist(regs, cmds + then1, then2, id);
    var r, s := Run(regs, cmds), Run(regs, cmds + then1);
    if r.statuses[id].Running? && !s.statuses[id].Running? {
      SpentStaysSpent(regs, cmds + then1, then2, id);
    }
  }

  /**
   Restarting a running take-once service ends it for good: the stop succeeds, the start finds
   its channel ends consumed, that is the reply, and no later command makes it Running again.
   */
  lemma RestartEndsTakeOnce(regs: seq<Registration>, cmds: seq<Command>, w: World, more: seq<Command>, id: ServiceId)
    requires AllNew(regs) && id in Run(regs, cmds).statuses && Run(regs, cmds).statuses[id].Running?
    requires id in Run(regs, cmds).services && Run(regs, cmds).services[id].service.TakeOnce()
    ensures var (t, reply) := HandleRestart(Run(regs, cmds), id, w);
            && reply == Err(FromService(AlreadyConsumed)) && t.statuses[id] == Failed(AlreadyConsumed)
            && !t.services[id].service.Holds()
    ensures var u := Run(regs, cmds + [Restart(id, w)] + more);
            && id in u.statuses && id in u.services && !u.statuses[id].Running?
            && u.services[id].tasks == Run(regs, cmds).services[id].tasks
  {
    RunAgrees(regs, cmds);
    var s, all := Run(regs, cmds), cmds + [Restart(id, w)];
    assert SlotOk(s.services[id], s.statuses[id]);
    assert Front(all) == cmds;
    SpentStaysSpent(regs, all, more, id);
  }

  predicate SameKind(a: Service, b: Service) {
    && a.Gateway? == b.Gateway? && a.Mosquitto? == b.Mosquitto? && a.MqttClient? == b.MqttClient?
    && a.CloudGateway? == b.CloudGateway? && a.GatewayMqtt? == b.GatewayMqtt?
  }

  /** From `a` to `b` a service keeps its kind and regains no consumed channel end. */
  predicate Persists(a: Service, b: Service) {
    SameKind(a, b) && (a.TakeOnce() && !a.Unused() ==> !b.Unused())
  }

  lemma StartStopPersist(svc: Service, w: World)
    ensures Persists(svc, StartService(svc, w).service) && Persists(svc, StopService(svc).0)
  {
  }

  lemma HandleStartPersists(s: State, other: ServiceId, w: World, id: ServiceId)
    requires id in s.services
    ensures id in HandleStart(s, other, w).0.services
    ensures Persists(s.services[id].service, HandleStart(s, other, w).0.services[id].service)
  {
    StartStopPersist(s.services[id].service, w);
  }

  lemma HandleStopPersists(s: State, other: ServiceId, id: ServiceId)
    requires id in s.services
    ensures id in HandleStop(s, other).0.services
    ensures Persists(s.services[id].service, HandleStop(s, other).0.services[id].service)
  {
    StartStopPersist(s.services[id].service, World(true, true, true, None, true));
  }

  lemma StepPersists(s: State, c: Command, id: ServiceId)
    requires id in s.services
    ensures id in Step(s, c).services && Persists(s.services[id].service, Step(s, c).services[id].service)
  {
    if !c.GetStatus? {
      HandleStopPersists(s, c.id, id);
      if !c.Stop? {
        HandleStartPersists(s, c.id, c.world, id);
        HandleStartPersists(HandleStop(s, c.id).0, c.id, c.world, id);
      }
    }
  }

  /** Services are never lost, keep their kind, and consumed channel ends do not come back. */
  lemma {:induction false} SlotsPersist(regs: seq<Registration>, cmds: seq<Command>, more: seq<Command>, id: ServiceId)
    requires id in Run(regs, cmds).services
    ensures id in Run(regs, cmds + more).services
    ensures Persists(Run(regs, cmds).services[id].service, Run(regs, cmds + more).services[id].service)
  {
    if more == [] {
      assert cmds + more == cmds;
    } else {
      SlotsPersist(regs, cmds, Front(more), id);
      assert Front(cmds + more) == cmds + Front(more) && Last(cmds + more) == Last(more);
      StepPersists(Run(regs, cmds + Front(more)), Last(more), id);
    }
  }

  /** The MQTT client's three channel ends go together, and so do its two shutdown senders. */
  lemma MqttClientStaysWhole(regs: seq<Registration>, cmds: seq<Command>, id: ServiceId)
    requires AllNew(regs) && id in Run(regs, cmds).services && Run(regs, cmds).services[id].service.MqttClient?
    ensures var m := Run(regs, cmds).services[id].service;
            m.cmdRx == m.outRx == m.connectedTx && m.shutdown == m.cmdShutdown && (m.cmdRx ==> !m.shutdown)
  {
    RunAgrees(regs, cmds);
  }

  // ── The gateway that failed TLS ──────────────────────────────────────────────────────

  /** Failed, yet holding its sender: the listener is gone but the service believes it runs. */
  predicate Stuck(s: State, id: ServiceId) {
    && id in s.services && id in s.statuses
    && s.statuses[id].Failed? && s.services[id].service.Gateway? && s.services[id].service.Holds()
  }

  lemma StepKeepsStuck(s: State, c: Command, id: ServiceId)
    requires Stuck(s, id) && c != Stop(id)
    ensures Stuck(Step(s, c), id)
  {
    match c
    case Start(other, w) => StartKeepsStuck(s, other, w, id);
    case Restart(other, w) =>
      StartKeepsStuck(s, other, w, id);
      if other != id {
        StartKeepsStuck(HandleStop(s, other).0, other, w, id);
      }
    case _ =>
  }

  lemma StartKeepsStuck(s: State, other: ServiceId, w: World, id: ServiceId)
    requires Stuck(s, id)
    ensures Stuck(HandleStart(s, other, w).0, id)
  {
  }

  /** Neither start nor restart gets it out, in any world; a stop does, and always succeeds. */
  lemma {:induction false} StuckUntilStopped(regs: seq<Registration>, cmds: seq<Command>, more: seq<Command>, id: ServiceId)
    requires Stuck(Run(regs, cmds), id) && forall i :: 0 <= i < |more| ==> more[i] != Stop(id)
    ensures Stuck(Run(regs, cmds + more), id)
    ensures var (t, reply) := HandleStop(Run(regs, cmds + more), id);
            reply == Ok(()) && t.statuses[id] == Stopped && !t.services[id].service.Holds()
  {
    if more == [] {
      assert cmds + more == cmds;
    } else {
      assert forall i :: 0 <= i < |Front(more)| ==> Front(more)[i] == more[i];
      StuckUntilStopped(regs, cmds, Front(more), id);
      assert Front(cmds + more) == cmds + Front(more) && Last(cmds + more) == Last(more);
      StepKeepsStuck(Run(regs, cmds + Front(more)), Last(more), id);
    }
  }

  /** It does happen: a start that binds its port and then fails to build the TLS configuration. */
  lemma TlsFailureGetsStuck()
    ensures var regs := [Registration(GatewayId, Gateway(true, false), true)];
            AllNew(regs) && Stuck(Run(regs, [Start(GatewayId, World(true, false, true, None, true))]), GatewayId)
  {
    var regs := [Registration(GatewayId, Gateway(true, false), true)];
    var cmds := [Start(GatewayId, World(true, false, true, None, true))];
    assert Front(regs) == [] && Front(cmds) == [];
    assert RegisterAll([]) == State(map[], map[]);
    assert Run(regs, []) == RegisterAll(regs);
  }

  // ── Shutdown ─────────────────────────────────────────────────────────────────────────

  /** When the command channel closes, every service is stopped, whatever its status. */
  function Shutdown(s: State): State {
    s.(services := map id | id in s.services :: StopSlot(s.services[id]))
  }

  lemma ShutdownReleasesEverything(regs: seq<Registration>, cmds: seq<Command>, id: ServiceId)
    requires id in Run(regs, cmds).services
    ensures id in Shutdown(Run(regs, cmds)).services && !Shutdown(Run(regs, cmds)).services[id].service.Holds()
  {
  }
}
