/** One MCP server connection (internal/mcp/server.go).  Each function is one section under the runtime's mutex. */
module McpRuntime {
  import opened Text

  datatype Status = Stopped | Starting | Connected | Failed

  /** A live session, with the generation of the start that opened it. */
  datatype Connection = Connection(generation: nat, token: nat)

  /** catalogFrom is the generation of the start whose session last supplied the tool catalog. */
  datatype Runtime = Runtime(enabled: bool, status: Status, generation: nat, session: Option<Connection>,
                             retired: bool, catalogFrom: nat)

  function Fresh(enabled: bool): Runtime { Runtime(enabled, Stopped, 0, None, false, 0) }

  predicate CanReserve(r: Runtime) { !r.retired && r.enabled }

  /** reserveStart: claim a generation before any asynchronous work is queued. */
  function Reserve(r: Runtime): Runtime {
    if r.retired then r
    else if !r.enabled then r.(status := Stopped)
    else r.(generation := r.generation + 1, status := Starting, session := None)
  }

  predicate ReservationCurrent(r: Runtime, gen: nat) { !r.retired && r.enabled && r.generation == gen }

  /** A start that could not connect or list the tools. */
  function FailStart(r: Runtime, gen: nat): Runtime {
    if r.generation == gen && !r.retired then r.(status := Failed) else r
  }

  /** The last section of runReservedStart. */
  function Publish(r: Runtime, gen: nat, token: nat): Runtime {
    if ReservationCurrent(r, gen)
    then r.(session := Some(Connection(gen, token)), status := Connected, catalogFrom := gen)
    else r
  }

  function Terminate(r: Runtime, gen: nat, token: nat): Runtime {
    if !r.retired && r.generation == gen && r.session.Some? && r.session.value.token == token
    then r.(status := Failed, session := None)
    else r
  }

  function Stop(r: Runtime): Runtime { r.(generation := r.generation + 1, status := Stopped, session := None) }

  function Retire(r: Runtime): Runtime {
    if r.retired then r
    else r.(retired := true, enabled := false, generation := r.generation + 1, status := Stopped, session := None)
  }

  /** Whether the first section of SetEnabledForRuntime leaves everything as it is. */
  predicate NothingToDo(r: Runtime, enabled: bool, active: bool) {
    r.retired || (r.enabled == enabled &&
      ((!enabled && r.status == Stopped) || (enabled && active && r.status in {Starting, Connected})))
  }

  function SetFlag(r: Runtime, enabled: bool, active: bool): Runtime {
    if NothingToDo(r, enabled, active) then r else r.(enabled := enabled)
  }

  /** The last section of syncCatalogForNotification. */
  predicate NotificationCurrent(r: Runtime, gen: nat, token: nat) {
    !r.retired && r.enabled && r.status == Connected && r.generation == gen && r.session == Some(Connection(gen, token))
  }

  function SyncNotification(r: Runtime, gen: nat, token: nat): Runtime {
    if NotificationCurrent(r, gen, token) then r.(catalogFrom := gen) else r
  }

  /** What every section keeps: a session belongs to the present generation, comes with the catalog of that
      generation, and never exists in a retired runtime; what is shown as connected has a session. */
  predicate RuntimeOk(r: Runtime) {
    && (r.status == Connected ==> r.session.Some?)
    && (r.session.Some? ==> r.session.value.generation == r.generation && !r.retired && r.catalogFrom == r.generation)
    && (r.retired ==> !r.enabled)
  }

  /** The runtime object. */
  class ServerRuntime {
    var enabled: bool
    var status: Status
    var generation: nat
    var session: Option<Connection>
    var retired: bool
    var catalogFrom: nat

    ghost function View(): Runtime reads this { Runtime(enabled, status, generation, session, retired, catalogFrom) }

    constructor (enabled: bool)
      ensures View() == Fresh(enabled)
    {
      this.enabled, status, generation, session, retired, catalogFrom := enabled, Stopped, 0, None, false, 0;
    }

    method ReserveStart() returns (reservation: Option<nat>)
      modifies this
      ensures View() == Reserve(old(View()))
      ensures reservation == if CanReserve(old(View())) then Some(old(generation) + 1) else None
    {
      if retired { return None; }
      if !enabled { status := Stopped; return None; }
      generation := generation + 1;
      status, session := Starting, None;
      return Some(generation);
    }

    /** connected is the outcome of transport, handshake and tool listing, with the session's token. */
    method FinishReservedStart(gen: nat, connected: Option<nat>) returns (ok: bool)
      modifies this
      ensures View() == if connected.Some? then Publish(old(View()), gen, connected.value)
              else FailStart(old(View()), gen)
      ensures ok <==> connected.Some? && ReservationCurrent(old(View()), gen)
    {
      if connected.None? {
        if generation == gen && !retired { status := Failed; }
        return false;
      }
      if generation != gen || retired || !enabled { return false; }
      catalogFrom, session, status := gen, Some(Connection(gen, connected.value)), Connected;
      return true;
    }

    method HandleTermination(gen: nat, token: nat)
      modifies this
      ensures View() == Terminate(old(View()), gen, token)
    {
      if !retired && generation == gen && session.Some? && session.value.token == token {
        status, session := Failed, None;
      }
    }

    method StopRuntime()
      modifies this
      ensures View() == Stop(old(View()))
    {
      generation, status, session := generation + 1, Stopped, None;
    }

    method RetireRuntime()
      modifies this
      ensures View() == Retire(old(View()))
    {
      if retired { return; }
      retired, enabled, generation, status, session := true, false, generation + 1, Stopped, None;
    }

    method SetEnabledFlag(enable: bool, active: bool) returns (proceed: bool)
      modifies this
      ensures View() == SetFlag(old(View()), enable, active)
      ensures proceed <==> !NothingToDo(old(View()), enable, active)
    {
      if retired { return false; }
      if enabled == enable {
        if !enable && status == Stopped { return false; }
        if enable && active && (status == Starting || status == Connected) { return false; }
      }
      enabled := enable;
      return true;
    }
  }
}
