/**
 What each command does in every run, service by service: when a start succeeds and with which
 pid, when a stop does, what a restart comes to, and what each of them replies.
 */
module SupervisorOutcomes {
  import opened Common
  import opened Services
  import opened Supervisor

  /** From `s` to `t` nothing but service `id` and its status changes. */
  predicate OnlyChanges(s: State, t: State, id: ServiceId) {
    && t.services.Keys == s.services.Keys && t.statuses.Keys == s.statuses.Keys
    && (forall other :: other in s.services && other != id ==> t.services[other] == s.services[other])
    && (forall other :: other in s.statuses && other != id ==> t.statuses[other] == s.statuses[other])
  }

  predicate Up(status: Status, answer: Answer, pid: nat) {
    status == Running(pid) && answer == Done(Ok(()))
  }

  predicate Down(status: Status, answer: Answer, reason: ServiceError) {
    status == Failed(reason) && answer == Done(Err(FromService(reason)))
  }

  /** A started service, the status it ends up with, and the reply. */
  predicate StartedAs(service: Service, w: World, after: Service, status: Status, answer: Answer) {
    match service
    case Gateway(tls, holding) =>
      if holding then after == service && Down(status, answer, AlreadyRunning)
      else if !w.bindOk then after == service && Down(status, answer, BindFailed)
      else after == Gateway(tls, true) && if tls && !w.tlsOk then Down(status, answer, TlsFailed) else Up(status, answer, 0)
    case Mosquitto(_) =>
      (match w.spawned
       case Some(Some(pid)) =>
         if w.configExists then after == Mosquitto(Some(pid)) && Up(status, answer, pid)
         else after == Mosquitto(None) && Down(status, answer, ConfigMissing)
       case _ => after == Mosquitto(None) && Down(status, answer, if w.configExists then SpawnFailed else ConfigMissing))
    case MqttClient(ends, _, _, _, _) =>
      if !ends then after == service && Down(status, answer, AlreadyConsumed)
      else if w.optionsOk then after == MqttClient(false, false, false, true, true) && Up(status, answer, 0)
      else after == MqttClient(false, false, false, false, false) && Down(status, answer, OptionsFailed)
    case CloudGateway(unused, _) =>
      if unused then after == CloudGateway(false, true) && Up(status, answer, 0)
      else after == service && Down(status, answer, AlreadyConsumed)
    case GatewayMqtt(unused, _) =>
      if unused then after == GatewayMqtt(false, true) && Up(status, answer, 0)
      else after == service && Down(status, answer, AlreadyConsumed)
  }

  /** What was done to the service is on record: one start, a task if it runs, and then its pid. */
  predicate StartRecorded(before: Slot, after: Slot, status: Status) {
    && after.startCalls == before.startCalls + 1
    && after.tasks == before.tasks + (if status.Running? then 1 else 0)
    && after.lastPid == if status.Running? then Some(status.pid) else before.lastPid
  }

  /** The command changes nothing and is answered with this error. */
  predicate Rejected(s: State, t: State, answer: Answer, error: Error) {
    t == s && answer == Done(Err(error))
  }

  lemma RunNext(regs: seq<Registration>, cmds: seq<Command>, c: Command)
    ensures Run(regs, cmds + [c]) == Step(Run(regs, cmds), c)
  {
    assert Front(cmds + [c]) == cmds;
  }

  /**
   How a start ends: of a Stopped or Failed service it always calls it, exactly once, and that
   ends Running or Failed as the service's fields and the world decide; any other is refused and
   changes nothing.
   */
  predicate StartEnds(s: State, id: ServiceId, w: World, t: State, answer: Answer) {
    if id !in s.statuses then Rejected(s, t, answer, NotRegistered)
    else if s.statuses[id].Unavailable? then Rejected(s, t, answer, NotInstalled)
    else if s.statuses[id].Running? then Rejected(s, t, answer, AlreadyUp)
    else
      && id in s.services && id in t.services && id in t.statuses && OnlyChanges(s, t, id)
      && StartRecorded(s.services[id], t.services[id], t.statuses[id])
      && StartedAs(s.services[id].service, w, t.services[id].service, t.statuses[id], answer)
  }

  /** A start that is not refused replaces the slot and the status of its service. */
  lemma StartReplaces(s: State, id: ServiceId, w: World)
    requires Agrees(s) && id in s.statuses && (s.statuses[id].Stopped? || s.statuses[id].Failed?)
    ensures var r := StartService(s.services[id].service, w).result;
            var status := if r.Ok? then Running(r.value) else Failed(r.error);
            HandleStart(s, id, w) ==
              (State(s.services[id := StartSlot(s.services[id], w)], s.statuses[id := status]),
               if r.Ok? then Ok(()) else Err(FromService(r.error)))
  {
    var r := StartService(s.services[id].service, w).result;
    var status := if r.Ok? then Running(r.value) else Failed(r.error);
    assert s.statuses[id := Starting][id := status] == s.statuses[id := status];
  }

  lemma HandledStart(s: State, id: ServiceId, w: World)
    requires Agrees(s)
    ensures StartEnds(s, id, w, HandleStart(s, id, w).0, Done(HandleStart(s, id, w).1))
  {
    if id in s.statuses && (s.statuses[id].Stopped? || s.statuses[id].Failed?) {
      StartReplaces(s, id, w);
      SlotStarts(s.services[id], s.statuses[id], w);
    }
  }

  /** Every start, in every run, ends that way. */
  lemma StartOutcome(regs: seq<Registration>, cmds: seq<Command>, id: ServiceId, w: World)
    requires AllNew(regs)
    ensures StartEnds(Run(regs, cmds), id, w, Run(regs, cmds + [Start(id, w)]), AnswerTo(Run(regs, cmds), Start(id, w)))
  {
    RunAgrees(regs, cmds);
    RunNext(regs, cmds, Start(id, w));
    HandledStart(Run(regs, cmds), id, w);
  }

  lemma SlotStarts(slot: Slot, status: Status, w: World)
    requires SlotOk(slot, status) && (status.Stopped? || status.Failed?)
    ensures var r := StartService(slot.service, w).result;
            var after := if r.Ok? then Running(r.value) else Failed(r.error);
            && StartRecorded(slot, StartSlot(slot, w), after)
            && StartedAs(slot.service, w, StartSlot(slot, w).service, after,
                         Done(if r.Ok? then Ok(()) else Err(FromService(r.error))))
  {
  }

  /** A stopped service holds nothing and has otherwise not changed. */
  function Released(service: Service): Service {
    match service
    case Gateway(tls, _) => Gateway(tls, false)
    case Mosquitto(_) => Mosquitto(None)
    case MqttClient(a, b, c, _, _) => MqttClient(a, b, c, false, false)
    case CloudGateway(rx, _) => CloudGateway(rx, false)
    case GatewayMqtt(rx, _) => GatewayMqtt(rx, false)
  }

  /** A failed service can be stopped if it still holds something, or never minds being stopped. */
  predicate FailedStops(service: Service) {
    service.Holds() || service.CloudGateway? || service.GatewayMqtt?
  }

  /** How a stop ends: it releases what the service holds; it is refused, or fails, exactly as stated. */
  predicate StopEnds(s: State, id: ServiceId, t: State, answer: Answer) {
    if id !in s.statuses then Rejected(s, t, answer, NotRegistered)
    else if s.statuses[id].Stopped? then Rejected(s, t, answer, AlreadyStopped)
    else if s.statuses[id].Unavailable? then Rejected(s, t, answer, NotAvailable)
    else
      && id in s.services && id in t.services && id in t.statuses && OnlyChanges(s, t, id)
      && t.services[id] == s.services[id].(service := Released(s.services[id].service))
      && if s.statuses[id].Running? || FailedStops(s.services[id].service)
         then t.statuses[id] == Stopped && answer == Done(Ok(()))
         else t.statuses[id] == s.statuses[id] && answer == Done(Err(FromService(NotRunning)))
  }

  lemma HandledStop(s: State, id: ServiceId)
    requires Agrees(s)
    ensures StopEnds(s, id, HandleStop(s, id).0, Done(HandleStop(s, id).1))
  {
    if id in s.statuses && (s.statuses[id].Running? || s.statuses[id].Failed?) {
      SlotStops(s.services[id], s.statuses[id]);
    }
  }

  /** Every stop, in every run, ends that way. */
  lemma StopOutcome(regs: seq<Registration>, cmds: seq<Command>, id: ServiceId)
    requires AllNew(regs)
    ensures StopEnds(Run(regs, cmds), id, Run(regs, cmds + [Stop(id)]), AnswerTo(Run(regs, cmds), Stop(id)))
  {
    RunAgrees(regs, cmds);
    RunNext(regs, cmds, Stop(id));
    HandledStop(Run(regs, cmds), id);
  }

  lemma SlotStops(slot: Slot, status: Status)
    requires SlotOk(slot, status) && (status.Running? || status.Failed?)
    ensures StopSlot(slot) == slot.(service := Released(slot.service))
    ensures StopService(slot.service).1 ==
            if status.Running? || FailedStops(slot.service) then Ok(()) else Err(NotRunning)
  {
  }

  /**
   A restart of a Running service starts what its stop left, which for the gateway and Mosquitto
   runs again whenever the world lets it; of any other it is a start.
   */
  lemma RestartOutcome(regs: seq<Registration>, cmds: seq<Command>, id: ServiceId, w: World)
    requires AllNew(regs)
    ensures var s, t := Run(regs, cmds), Run(regs, cmds + [Restart(id, w)]);
            var answer := AnswerTo(s, Restart(id, w));
            if id in s.statuses && s.statuses[id].Running? then
              && id in s.services && OnlyChanges(s, t, id)
              && StartRecorded(s.services[id], t.services[id], t.statuses[id])
              && StartedAs(Released(s.services[id].service), w, t.services[id].service, t.statuses[id], answer)
            else t == Run(regs, cmds + [Start(id, w)]) && answer == AnswerTo(s, Start(id, w))
  {
    var s := Run(regs, cmds);
    RunNext(regs, cmds, Restart(id, w));
    RunNext(regs, cmds, Start(id, w));
    if id in s.statuses && s.statuses[id].Running? {
      StopOutcome(regs, cmds, id);
      RunNext(regs, cmds, Stop(id));
      StartOutcome(regs, cmds + [Stop(id)], id, w);
      RunNext(regs, cmds + [Stop(id)], Start(id, w));
    }
  }

  /** A status request changes nothing and reports the status of every registered service. */
  lemma ReportOutcome(regs: seq<Registration>, cmds: seq<Command>)
    ensures Run(regs, cmds + [GetStatus]) == Run(regs, cmds)
    ensures AnswerTo(Run(regs, cmds), GetStatus) == Report(Run(regs, cmds).statuses)
  {
    RunNext(regs, cmds, GetStatus);
  }

  /** What the latest registration of an id says is what the loop starts with. */
  lemma {:induction false} RegistrationOutcome(regs: seq<Registration>, k: nat)
    requires k < |regs| && forall j :: k < j < |regs| ==> regs[j].id != regs[k].id
    ensures var s, r := Run(regs, []), regs[k];
            && r.id in s.services && s.services[r.id].service == r.service
            && r.id in s.statuses && s.statuses[r.id] == if r.available then Stopped else Unavailable
  {
    if k < |regs| - 1 {
      var front := Front(regs);
      assert forall j :: 0 <= j < |front| ==> front[j] == regs[j];
      RegistrationOutcome(front, k);
      assert Last(regs) == regs[|regs| - 1];
    }
  }

  /** When the loop ends every service is released; statuses and records of the past stay. */
  lemma ShutdownOutcome(regs: seq<Registration>, cmds: seq<Command>, id: ServiceId)
    requires AllNew(regs) && id in Run(regs, cmds).services
    ensures var s, t := Run(regs, cmds), Shutdown(Run(regs, cmds));
            && t.statuses == s.statuses && id in t.services
            && t.services[id] == s.services[id].(service := Released(s.services[id].service))
  {
    RunAgrees(regs, cmds);
    assert SlotOk(Run(regs, cmds).services[id], Run(regs, cmds).statuses[id]);
  }
}
