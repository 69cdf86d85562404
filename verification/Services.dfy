/**
 The five managed services: what each privately holds, and what starting and stopping does
 to it. `true` in a field means the option holds a value.
 */
module Services {
  import opened Common

  datatype ServiceError =
    | AlreadyRunning | NotRunning | AlreadyConsumed | BindFailed | TlsFailed | ConfigMissing | SpawnFailed | OptionsFailed

  datatype Service =
    | Gateway(tls: bool, shutdown: bool)
    | Mosquitto(child: Option<nat>)
    | MqttClient(cmdRx: bool, outRx: bool, connectedTx: bool, shutdown: bool, cmdShutdown: bool)
    | CloudGateway(outboundRx: bool, shutdown: bool)
    | GatewayMqtt(outboundRx: bool, shutdown: bool)
  {
    /** What a stop needs to find: the shutdown sender, or the child process. */
    predicate Holds() {
      if Mosquitto? then child.Some? else shutdown
    }

    predicate TakeOnce() {
      MqttClient? || CloudGateway? || GatewayMqtt?
    }

    /** The channel ends a take-once service can be started with are still there. */
    predicate Unused()
      requires TakeOnce()
    {
      if MqttClient? then cmdRx && outRx && connectedTx else outboundRx
    }

    /** The ends are all present or all consumed, and both senders are held or neither is. */
    predicate Whole() {
      && (MqttClient? ==> cmdRx == outRx == connectedTx && shutdown == cmdShutdown)
      && (TakeOnce() ==> (Unused() ==> !Holds()))
    }

    /** As constructed. */
    predicate New() {
      Whole() && !Holds() && (TakeOnce() ==> Unused())
    }
  }

  /** What a start meets outside the process; `spawned` is the child and, if it has one, its pid. */
  datatype World = World(bindOk: bool, tlsOk: bool, configExists: bool, spawned: Option<Option<nat>>, optionsOk: bool)

  /** `task` tells whether a connection task, accept loop or child was started. */
  datatype Started = Started(service: Service, result: Result<nat, ServiceError>, task: bool)

  function Refused(s: Service, e: ServiceError): Started {
    Started(s, Err(e), false)
  }

  /** `take_channels`: the ends are taken one by one, so a missing later one leaves a partial take. */
  function TakeChannels(s: Service): (Service, bool)
    requires s.MqttClient?
  {
    if !s.cmdRx then (s, false)
    else if !s.outRx then (MqttClient(false, false, s.connectedTx, s.shutdown, s.cmdShutdown), false)
    else if !s.connectedTx then (MqttClient(false, false, false, s.shutdown, s.cmdShutdown), false)
    else (MqttClient(false, false, false, s.shutdown, s.cmdShutdown), true)
  }

  /** It succeeds if all three ends are there; each end is gone if those before it were there. */
  lemma TakeChannelsOutcome(s: Service)
    requires s.MqttClient?
    ensures var (t, ok) := TakeChannels(s);
            && (ok <==> s.cmdRx && s.outRx && s.connectedTx)
            && t.MqttClient? && !t.cmdRx && t.shutdown == s.shutdown && t.cmdShutdown == s.cmdShutdown
            && (t.outRx <==> s.outRx && !s.cmdRx)
            && (t.connectedTx <==> s.connectedTx && !(s.cmdRx && s.outRx))
  {
  }

  function StartService(s: Service, w: World): Started {
    match s
    case Gateway(tls, shutdown) =>
      if shutdown then Refused(s, AlreadyRunning)
      else if !w.bindOk then Refused(s, BindFailed)
      else if tls && !w.tlsOk then Refused(Gateway(tls, true), TlsFailed)
      else Started(Gateway(tls, true), Ok(0), true)
    case Mosquitto(child) =>
      if child.Some? then Refused(s, AlreadyRunning)
      else if !w.configExists then Refused(s, ConfigMissing)
      else if w.spawned.None? || w.spawned.value.None? then Refused(s, SpawnFailed)
      else Started(Mosquitto(w.spawned.value), Ok(w.spawned.value.value), true)
    case MqttClient(_, _, _, shutdown, _) =>
      if shutdown then Refused(s, AlreadyRunning)
      else
        var (taken, ok) := TakeChannels(s);
        if !ok then Refused(taken, AlreadyConsumed)
        else if !w.optionsOk then Refused(taken, OptionsFailed)
        else Started(MqttClient(false, false, false, true, true), Ok(0), true)
    case CloudGateway(outboundRx, _) =>
      if !outboundRx then Refused(s, AlreadyConsumed)
      else Started(CloudGateway(false, true), Ok(0), true)
    case GatewayMqtt(outboundRx, _) =>
      if !outboundRx then Refused(s, AlreadyConsumed)
      else Started(GatewayMqtt(false, true), Ok(0), true)
  }

  function StopService(s: Service): (Service, Result<(), ServiceError>) {
    match s
    case Gateway(tls, shutdown) => (Gateway(tls, false), if shutdown then Ok(()) else Err(NotRunning))
    case Mosquitto(child) => (Mosquitto(None), if child.Some? then Ok(()) else Err(NotRunning))
    case MqttClient(cmdRx, outRx, connectedTx, shutdown, _) =>
      if shutdown then (MqttClient(cmdRx, outRx, connectedTx, false, false), Ok(())) else (s, Err(NotRunning))
    case CloudGateway(outboundRx, _) => (CloudGateway(outboundRx, false), Ok(()))
    case GatewayMqtt(outboundRx, _) => (GatewayMqtt(outboundRx, false), Ok(()))
  }

  // ── The services as objects ──────────────────────────────────────────────────────────

  class GatewayService {
    const tls: bool
    var shutdownTx: bool

    ghost function Value(): Service reads this { Gateway(tls, shutdownTx) }

    constructor (tls: bool)
      ensures Value() == Gateway(tls, false) && Value().New()
    {
      this.tls, shutdownTx := tls, false;
    }

    /** The sender is stored before TLS is set up, so a TLS failure leaves it behind. */
    method Start(w: World) returns (r: Result<nat, ServiceError>)
      modifies this
      ensures Value() == StartService(old(Value()), w).service && r == StartService(old(Value()), w).result
    {
      if shutdownTx {
        return Err(AlreadyRunning);
      }
      if !w.bindOk {
        return Err(BindFailed);
      }
      shutdownTx := true;
      if tls {
        if !w.tlsOk {
          return Err(TlsFailed);
        }
      }
      r := Ok(0);
    }

    method Stop() returns (r: Result<(), ServiceError>)
      modifies this
      ensures (Value(), r) == StopService(old(Value()))
    {
      r := if shutdownTx then Ok(()) else Err(NotRunning);
      shutdownTx := false;
    }
  }

  class MosquittoBrokerageService {
    var child: Option<nat>

    ghost function Value(): Service reads this { Mosquitto(child) }

    constructor ()
      ensures Value() == Mosquitto(None) && Value().New()
    {
      child := None;
    }

    method Start(w: World) returns (r: Result<nat, ServiceError>)
      modifies this
      ensures Value() == StartService(old(Value()), w).service && r == StartService(old(Value()), w).result
    {
      if child.Some? {
        return Err(AlreadyRunning);
      }
      if !w.configExists {
        return Err(ConfigMissing);
      }
      match w.spawned {
        case None =>
          return Err(SpawnFailed);
        case Some(pid) =>
          if pid.None? {
            return Err(SpawnFailed);
          }
          child := pid;
          r := Ok(pid.value);
      }
    }

    method Stop() returns (r: Result<(), ServiceError>)
      modifies this
      ensures (Value(), r) == StopService(old(Value()))
    {
      if child.Some? {
        child := None;
        r := Ok(());
      } else {
        r := Err(NotRunning);
      }
    }
  }

  class MqttClientService {
    var cmdRx: bool
    var outRx: bool
    var connectedTx: bool
    var shutdownTx: bool
    var cmdShutdownTx: bool

    ghost function Value(): Service reads this { MqttClient(cmdRx, outRx, connectedTx, shutdownTx, cmdShutdownTx) }

    constructor ()
      ensures Value() == MqttClient(true, true, true, false, false) && Value().New()
    {
      cmdRx, outRx, connectedTx, shutdownTx, cmdShutdownTx := true, true, true, false, false;
    }

    method TakeAll() returns (ok: bool)
      modifies this
      ensures (Value(), ok) == TakeChannels(old(Value()))
    {
      if !cmdRx {
        return false;
      }
      cmdRx := false;
      if !outRx {
        return false;
      }
      outRx := false;
      if !connectedTx {
        return false;
      }
      connectedTx := false;
      ok := true;
    }

    method Start(w: World) returns (r: Result<nat, ServiceError>)
      modifies this
      ensures Value() == StartService(old(Value()), w).service && r == StartService(old(Value()), w).result
    {
      if shutdownTx {
        return Err(AlreadyRunning);
      }
      var ok := TakeAll();
      if !ok {
        return Err(AlreadyConsumed);
      }
      if !w.optionsOk {
        return Err(OptionsFailed);
      }
      shutdownTx := true;
      cmdShutdownTx := true;
      r := Ok(0);
    }

    method Stop() returns (r: Result<(), ServiceError>)
      modifies this
      ensures (Value(), r) == StopService(old(Value()))
    {
      if shutdownTx {
        shutdownTx := false;
        if cmdShutdownTx {
          cmdShutdownTx := false;
        }
        r := Ok(());
      } else {
        r := Err(NotRunning);
      }
    }
  }

  class CloudGatewayService {
    var outboundRx: bool
    var shutdownTx: bool

    ghost function Value(): Service reads this { CloudGateway(outboundRx, shutdownTx) }

    constructor ()
      ensures Value() == CloudGateway(true, false) && Value().New()
    {
      outboundRx, shutdownTx := true, false;
    }

    method Start(w: World) returns (r: Result<nat, ServiceError>)
      modifies this
      ensures Value() == StartService(old(Value()), w).service && r == StartService(old(Value()), w).result
    {
      if !outboundRx {
        return Err(AlreadyConsumed);
      }
      outboundRx := false;
      shutdownTx := true;
      r := Ok(0);
    }

    method Stop() returns (r: Result<(), ServiceError>)
      modifies this
      ensures (Value(), r) == StopService(old(Value()))
    {
      shutdownTx := false;
      r := Ok(());
    }
  }

  class GatewayMqttService {
    var outboundRx: bool
    var shutdownTx: bool

    ghost function Value(): Service reads this { GatewayMqtt(outboundRx, shutdownTx) }

    constructor ()
      ensures Value() == GatewayMqtt(true, false) && Value().New()
    {
      outboundRx, shutdownTx := true, false;
    }

    method Start(w: World) returns (r: Result<nat, ServiceError>)
      modifies this
      ensures Value() == StartService(old(Value()), w).service && r == StartService(old(Value()), w).result
    {
      if !outboundRx {
        return Err(AlreadyConsumed);
      }
      outboundRx := false;
      shutdownTx := true;
      r := Ok(0);
    }

    method Stop() returns (r: Result<(), ServiceError>)
      modifies this
      ensures (Value(), r) == StopService(old(Value()))
    {
      shutdownTx := false;
      r := Ok(());
    }
  }

  /** A boxed service: the one object the supervisor has for it. */
  datatype Boxed =
    | BoxedGateway(gateway: GatewayService)
    | BoxedMosquitto(broker: MosquittoBrokerageService)
    | BoxedMqttClient(client: MqttClientService)
    | BoxedCloudGateway(cloud: CloudGatewayService)
    | BoxedGatewayMqtt(mqtt: GatewayMqttService)
  {
    ghost function Object(): object {
      match this
      case BoxedGateway(g) => g
      case BoxedMosquitto(b) => b
      case BoxedMqttClient(c) => c
      case BoxedCloudGateway(c) => c
      case BoxedGatewayMqtt(m) => m
    }

    ghost function Value(): Service
      reads Object()
    {
      match this
      case BoxedGateway(g) => g.Value()
      case BoxedMosquitto(b) => b.Value()
      case BoxedMqttClient(c) => c.Value()
      case BoxedCloudGateway(c) => c.Value()
      case BoxedGatewayMqtt(m) => m.Value()
    }
  }

  /** A new object for a service in the state it is constructed in. */
  method Construct(service: Service) returns (b: Boxed)
    requires service.New()
    ensures fresh(b.Object()) && b.Value() == service
  {
    match service
    case Gateway(tls, _) =>
      var g := new GatewayService(tls);
      b := BoxedGateway(g);
    case Mosquitto(_) =>
      var m := new MosquittoBrokerageService();
      b := BoxedMosquitto(m);
    case MqttClient(_, _, _, _, _) =>
      var c := new MqttClientService();
      b := BoxedMqttClient(c);
    case CloudGateway(_, _) =>
      var c := new CloudGatewayService();
      b := BoxedCloudGateway(c);
    case GatewayMqtt(_, _) =>
      var m := new GatewayMqttService();
      b := BoxedGatewayMqtt(m);
  }

  method StartBoxed(b: Boxed, w: World) returns (r: Result<nat, ServiceError>)
    modifies b.Object()
    ensures b.Value() == StartService(old(b.Value()), w).service && r == StartService(old(b.Value()), w).result
  {
    match b
    case BoxedGateway(g) => r := g.Start(w);
    case BoxedMosquitto(m) => r := m.Start(w);
    case BoxedMqttClient(c) => r := c.Start(w);
    case BoxedCloudGateway(c) => r := c.Start(w);
    case BoxedGatewayMqtt(m) => r := m.Start(w);
  }

  method StopBoxed(b: Boxed) returns (r: Result<(), ServiceError>)
    modifies b.Object()
    ensures (b.Value(), r) == StopService(old(b.Value()))
  {
    match b
    case BoxedGateway(g) => r := g.Stop();
    case BoxedMosquitto(m) => r := m.Stop();
    case BoxedMqttClient(c) => r := c.Stop();
    case BoxedCloudGateway(c) => r := c.Stop();
    case BoxedGatewayMqtt(m) => r := m.Stop();
  }
}
