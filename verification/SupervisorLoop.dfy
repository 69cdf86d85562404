/** The supervisor object and its command loop, proved against the `Supervisor` machine. */
module SupervisorLoop {
  import opened Common
  import opened Services
  import opened Supervisor

  ghost function Objects(services: map<ServiceId, Boxed>): set<object> {
    set id | id in services :: services[id].Object()
  }

  /** No two ids share an object. */
  ghost predicate Separate(services: map<ServiceId, Boxed>) {
    forall id, id' :: id in services && id' in services && id != id' ==> services[id].Object() != services[id'].Object()
  }

  lemma SeparateAfter(services: map<ServiceId, Boxed>, id: ServiceId, b: Boxed)
    requires Separate(services) && b.Object() !in Objects(services)
    ensures Separate(services[id := b]) && Objects(services[id := b]) <= Objects(services) + {b.Object()}
  {
  }

  /** `slots` tells, for every boxed service, its value and what was done to it so far. */
  class SupervisorActor {
    var services: map<ServiceId, Boxed>
    var statuses: map<ServiceId, Status>
    ghost var slots: map<ServiceId, Slot>

    ghost function Repr(): set<object>
      reads this`services
    {
      Objects(services)
    }

    /** Every registered id has an object of its own, whose fields are as `slots` says. */
    ghost predicate Valid()
      reads this`services, this`slots, Repr()
    {
      && this !in Repr()
      && slots.Keys == services.Keys
      && (forall id :: id in services ==> slots[id].service == services[id].Value())
      && Separate(services)
    }

    ghost function View(): State
      reads this
    {
      State(slots, statuses)
    }

    constructor ()
      ensures Valid() && View() == RegisterAll([]) && Repr() == {}
    {
      services, statuses, slots := map[], map[], map[];
    }

    method RegisterService(id: ServiceId, service: Boxed, available: bool)
      requires Valid() && service.Object() != this && service.Object() !in Repr()
      modifies this
      ensures Valid() && Repr() <= old(Repr()) + {service.Object()}
      ensures View() == Register(old(View()), Registration(id, service.Value(), available))
    {
      var initial := if available then Stopped else Unavailable;
      SeparateAfter(services, id, service);
      statuses := statuses[id := initial];
      services := services[id := service];
      slots := slots[id := Slot(service.Value(), 0, 0, None)];
    }

    /** `start` on the boxed service. */
    method StartOne(id: ServiceId, w: World) returns (r: Result<nat, ServiceError>)
      requires Valid() && id in services
      modifies this`slots, services[id].Object()
      ensures Valid() && slots == old(slots)[id := StartSlot(old(slots)[id], w)]
      ensures r == StartService(old(slots)[id].service, w).result
    {
      r := StartBoxed(services[id], w);
      forall other | other in services && other != id ensures slots[other].service == services[other].Value() {
        assert services[other].Object() != services[id].Object();
      }
      slots := slots[id := StartSlot(slots[id], w)];
    }

    method StopOne(id: ServiceId) returns (r: Result<(), ServiceError>)
      requires Valid() && id in services
      modifies this`slots, services[id].Object()
      ensures Valid() && slots == old(slots)[id := StopSlot(old(slots)[id])]
      ensures r == StopService(old(slots)[id].service).1
    {
      r := StopBoxed(services[id]);
      forall other | other in services && other != id ensures slots[other].service == services[other].Value() {
        assert services[other].Object() != services[id].Object();
      }
      slots := slots[id := StopSlot(slots[id])];
    }

    method HandleStart(id: ServiceId, w: World) returns (reply: Reply)
      requires Valid()
      modifies this`statuses, this`slots, Repr()
      ensures Valid() && (View(), reply) == Supervisor.HandleStart(old(View()), id, w)
    {
      if id !in statuses {
        return Err(NotRegistered);
      }
      match statuses[id] {
        case Unavailable => return Err(NotInstalled);
        case Running(_) => return Err(AlreadyUp);
        case Starting => return Err(AlreadyStarting);
        case _ =>
      }
      statuses := statuses[id := Starting];
      if id !in services {
        return Err(NotRegistered);
      }
      var started := StartOne(id, w);
      match started {
        case Ok(pid) =>
          statuses := statuses[id := Running(pid)];
          reply := Ok(());
        case Err(e) =>
          statuses := statuses[id := Failed(e)];
          reply := Err(FromService(e));
      }
    }

    method HandleStop(id: ServiceId) returns (reply: Reply)
      requires Valid()
      modifies this`statuses, this`slots, Repr()
      ensures Valid() && (View(), reply) == Supervisor.HandleStop(old(View()), id)
    {
      if id in statuses {
        if statuses[id].Stopped? {
          return Err(AlreadyStopped);
        }
        if statuses[id].Unavailable? {
          return Err(NotAvailable);
        }
      }
      if id !in services {
        return Err(NotRegistered);
      }
      var result := StopOne(id);
      if result.Ok? {
        statuses := statuses[id := Stopped];
        reply := Ok(());
      } else {
        reply := Err(FromService(result.error));
      }
    }

    method HandleRestart(id: ServiceId, w: World) returns (reply: Reply)
      requires Valid()
      modifies this`statuses, this`slots, Repr()
      ensures Valid() && (View(), reply) == Supervisor.HandleRestart(old(View()), id, w)
    {
      if id in statuses && statuses[id].Running? {
        var ignored := HandleStop(id);
      }
      reply := HandleStart(id, w);
    }

    method Handle(c: Command) returns (a: Answer)
      requires Valid()
      modifies this`statuses, this`slots, Repr()
      ensures Valid() && View() == Step(old(View()), c) && a == AnswerTo(old(View()), c)
    {
      match c
      case Start(id, w) =>
        var reply := HandleStart(id, w);
        a := Done(reply);
      case Stop(id) =>
        var reply := HandleStop(id);
        a := Done(reply);
      case Restart(id, w) =>
        var reply := HandleRestart(id, w);
        a := Done(reply);
      case GetStatus =>
        a := Report(statuses);
    }

    /** Every service is stopped, in whatever order the map yields them. */
    method StopAll()
      requires Valid()
      modifies this`slots, Repr()
      ensures Valid() && View() == Shutdown(old(View()))
    {
      var todo := services.Keys;
      StoppingAll(View());
      while todo != {}
        invariant Valid() && todo <= services.Keys
        invariant slots == Stopping(old(slots), todo)
        decreases |todo|
      {
        var id :| id in todo;
        StoppingOne(old(slots), todo, id);
        var ignored := StopOne(id);
        todo := todo - {id};
      }
    }
  }

  /** `slots` with everything stopped but `todo`. */
  ghost function Stopping(slots: map<ServiceId, Slot>, todo: set<ServiceId>): map<ServiceId, Slot> {
    map id | id in slots :: if id in todo then slots[id] else StopSlot(slots[id])
  }

  lemma StoppingAll(s: State)
    ensures Stopping(s.services, s.services.Keys) == s.services
    ensures Stopping(s.services, {}) == Shutdown(s).services
  {
  }

  lemma StoppingOne(slots: map<ServiceId, Slot>, todo: set<ServiceId>, id: ServiceId)
    requires todo <= slots.Keys && id in todo
    ensures Stopping(slots, todo)[id := StopSlot(Stopping(slots, todo)[id])] == Stopping(slots, todo - {id})
  {
  }

  method RegisterNew(sup: SupervisorActor, reg: Registration)
    requires sup.Valid() && reg.service.New()
    modifies sup
    ensures sup.Valid() && fresh(sup.Repr() - old(sup.Repr())) && sup.View() == Register(old(sup.View()), reg)
  {
    var service := Construct(reg.service);
    assert service.Object() !in sup.Repr() && service.Object() != sup && sup.Valid();
    sup.RegisterService(reg.id, service, reg.available);
  }

  method RegisterServices(regs: seq<Registration>) returns (sup: SupervisorActor)
    requires AllNew(regs)
    ensures fresh(sup) && fresh(sup.Repr()) && sup.Valid() && sup.View() == RegisterAll(regs)
  {
    sup := new SupervisorActor();
    for i := 0 to |regs|
      invariant fresh(sup) && fresh(sup.Repr()) && sup.Valid() && sup.View() == RegisterAll(regs[..i])
    {
      RegisterNext(regs, i);
      RegisterNew(sup, regs[i]);
    }
    assert regs[..|regs|] == regs;
  }

  lemma RegisterNext(regs: seq<Registration>, i: nat)
    requires i < |regs|
    ensures RegisterAll(regs[..i + 1]) == Register(RegisterAll(regs[..i]), regs[i])
  {
    assert Front(regs[..i + 1]) == regs[..i];
  }

  /** The command loop, until its channel closes. */
  method Serve(sup: SupervisorActor, cmds: seq<Command>, ghost regs: seq<Registration>) returns (answers: seq<Answer>)
    requires sup.Valid() && sup.View() == Run(regs, [])
    modifies sup`statuses, sup`slots, sup.Repr()
    ensures sup.Valid() && sup.View() == Run(regs, cmds)
    ensures |answers| == |cmds|
    ensures forall i :: 0 <= i < |cmds| ==> answers[i] == AnswerTo(Run(regs, cmds[..i]), cmds[i])
  {
    answers := [];
    assert cmds[..0] == [];
    var i := 0;
    while i < |cmds|
      invariant i <= |cmds| && sup.Valid() && Answered(regs, cmds, i, answers, sup.View())
    {
      ghost var before := sup.View();
      var a := sup.Handle(cmds[i]);
      AnsweredNext(regs, cmds, i, answers, before, a);
      answers := answers + [a];
      i := i + 1;
    }
    assert cmds[..|cmds|] == cmds;
  }

  /** The first `i` commands have been answered as the machine would, which is now in `view`. */
  ghost predicate Answered(regs: seq<Registration>, cmds: seq<Command>, i: nat, answers: seq<Answer>, view: State) {
    && i == |answers| <= |cmds| && view == Run(regs, cmds[..i])
    && forall j :: 0 <= j < i ==> answers[j] == AnswerTo(Run(regs, cmds[..j]), cmds[j])
  }

  lemma AnsweredNext(regs: seq<Registration>, cmds: seq<Command>, i: nat, answers: seq<Answer>, view: State, a: Answer)
    requires Answered(regs, cmds, i, answers, view) && i < |cmds| && a == AnswerTo(view, cmds[i])
    ensures Answered(regs, cmds, i + 1, answers + [a], Step(view, cmds[i]))
  {
    assert Front(cmds[..i + 1]) == cmds[..i];
  }

  /**
   Registration, the command loop until its channel closes, and the final stop of everything.
   Each answer is that of the machine's state when its command is served.
   */
  method RunSupervisor(regs: seq<Registration>, cmds: seq<Command>) returns (sup: SupervisorActor, answers: seq<Answer>)
    requires AllNew(regs)
    ensures sup.Valid() && sup.View() == Shutdown(Run(regs, cmds))
    ensures |answers| == |cmds|
    ensures forall i :: 0 <= i < |cmds| ==> answers[i] == AnswerTo(Run(regs, cmds[..i]), cmds[i])
  {
    sup := RegisterServices(regs);
    answers := Serve(sup, cmds, regs);
    sup.StopAll();
  }

  /** Whenever the loop is between two commands, each status tells what its object holds. */
  lemma ObjectsAgree(sup: SupervisorActor, regs: seq<Registration>, cmds: seq<Command>, id: ServiceId)
    requires AllNew(regs) && sup.Valid() && sup.View() == Run(regs, cmds) && id in sup.statuses
    ensures id in sup.services
    ensures var service, status := sup.services[id].Value(), sup.statuses[id];
            service.Holds() <==> status.Running? || (status.Failed? && FailedHolding(service, status.reason))
  {
    StatusesAgreeWithServices(regs, cmds, id);
  }

  /** No status report, at any point of any run, shows a service as Starting. */
  lemma NoReportShowsStarting(regs: seq<Registration>, cmds: seq<Command>, id: ServiceId)
    requires AllNew(regs)
    ensures var a := AnswerTo(Run(regs, cmds), GetStatus);
            id in a.statuses ==> !a.statuses[id].Starting?
  {
    StatusesAgreeWithServices(regs, cmds, id);
  }
}
