// Discovered vehicles, their components, and the autopilot that stands for each
// (mavlink/vehicles.py).

module VehicleRegistries {
  import opened Prelude

  datatype Component = Component(autopilot: bool, connected: bool, lastSeen: Option<real>, lastObserved: Option<real>)

  datatype Vehicle = Vehicle(
    connected: bool,
    lastSeen: Option<real>,
    lastObserved: Option<real>,
    selected: Option<nat>,
    components: map<nat, Component>)

  datatype RegistryError = StillConnected | LiveComponents

  /** A message as the registry sees it; `autopilot` says that a heartbeat comes from an autopilot. */
  datatype Report = Report(system: Option<nat>, component: Option<nat>, heartbeat: bool, autopilot: bool, at: real)

  predicate Identified(r: Report) {
    && r.system.Some? && r.component.Some?
    && 1 <= r.system.value <= 255 && 1 <= r.component.value <= 255
  }

  // ---------------------------------------------------------------- selection

  predicate LiveAutopilot(v: Vehicle, id: nat) {
    id in v.components && v.components[id].connected && v.components[id].autopilot
  }

  function LiveAutopilots(v: Vehicle): set<nat> {
    set id | id in v.components && LiveAutopilot(v, id)
  }

  ghost predicate IsLowest(ids: set<nat>, id: nat) {
    id in ids && forall other :: other in ids ==> id <= other
  }

  /** The selected autopilot stays while it is live; otherwise the lowest live one is selected. */
  ghost predicate SelectionAfter(v: Vehicle, selected: Option<nat>) {
    if v.selected.Some? && LiveAutopilot(v, v.selected.value) then selected == v.selected
    else if LiveAutopilots(v) == {} then selected == None
    else selected.Some? && IsLowest(LiveAutopilots(v), selected.value)
  }

  /** What is selected is live, and nothing is selected only if nothing is live. */
  ghost predicate Settled(v: Vehicle) {
    if v.selected.Some? then LiveAutopilot(v, v.selected.value) else LiveAutopilots(v) == {}
  }

  lemma SelectionSettles(v: Vehicle, selected: Option<nat>)
    requires SelectionAfter(v, selected)
    ensures Settled(v.(selected := selected))
  {
    var w := v.(selected := selected);
    assert forall id :: LiveAutopilot(w, id) == LiveAutopilot(v, id);
    assert LiveAutopilots(w) == LiveAutopilots(v);
    if !(v.selected.Some? && LiveAutopilot(v, v.selected.value)) && selected.Some? {
      assert selected.value in LiveAutopilots(v);
    }
  }

  // ---------------------------------------------------------------- what every vehicle keeps

  /** Whatever is connected has been heard, and a selected component that is connected is an autopilot. */
  ghost predicate Sensible(v: Vehicle) {
    && (v.connected ==> v.lastSeen.Some?)
    && (forall id :: id in v.components && v.components[id].connected ==> v.components[id].lastSeen.Some?)
    && (v.selected.Some? && v.selected.value in v.components && v.components[v.selected.value].connected ==>
          v.components[v.selected.value].autopilot)
  }

  /**
   * A connected vehicle was last heard through a component that is connected, too; no connected
   * component was heard later.
   */
  ghost predicate InStep(v: Vehicle) {
    && (v.connected ==> exists id :: HeardLast(v, id))
    && (forall id :: id in v.components && v.components[id].connected ==> v.connected && HeardBy(v.components[id], v.lastSeen))
  }

  ghost predicate VehicleOk(v: Vehicle) {
    Sensible(v) && InStep(v)
  }

  ghost predicate HeardLast(v: Vehicle, id: nat) {
    id in v.components && v.components[id].connected && v.components[id].lastSeen == v.lastSeen
  }

  /** The component was last heard no later than `at`. */
  ghost predicate HeardBy(c: Component, at: Option<real>) {
    c.lastSeen.Some? && at.Some? && c.lastSeen.value <= at.value
  }

  /** The vehicle is connected exactly when one of its components is. */
  ghost predicate ShowsComponents(v: Vehicle) {
    v.connected <==> exists id :: id in v.components && v.components[id].connected
  }

  // ---------------------------------------------------------------- one vehicle, one event

  function NewVehicle(): Vehicle {
    Vehicle(false, None, None, None, map[])
  }

  function NewComponent(): Component {
    Component(false, false, None, None)
  }

  /** A vehicle and one of its components are observed; a heartbeat connects both. */
  function Observed(v: Vehicle, id: nat, r: Report): Vehicle {
    var c := if id in v.components then v.components[id] else NewComponent();
    var beat := if r.heartbeat then c.(autopilot := r.autopilot, connected := true, lastSeen := Some(r.at)) else c;
    var w := if r.heartbeat then v.(connected := true, lastSeen := Some(r.at)) else v;
    w.(components := v.components[id := beat.(lastObserved := Some(r.at))], lastObserved := Some(r.at))
  }

  /**
   * A message is observed on the vehicle and on its component. A heartbeat connects both, is when they were last
   * heard, and says whether the component is an autopilot; another message changes none of this, and a component it
   * is the first sign of is not connected. Nothing else about the vehicle changes.
   */
  lemma ObservedShows(v: Vehicle, id: nat, r: Report)
    ensures var w := Observed(v, id, r);
            && id in w.components
            && w.lastObserved == Some(r.at) && w.components[id].lastObserved == Some(r.at)
            && w.selected == v.selected
            && w.components.Keys == v.components.Keys + {id}
            && (forall x :: x in v.components && x != id ==> w.components[x] == v.components[x])
            && (r.heartbeat ==>
                  && w.connected && w.lastSeen == Some(r.at)
                  && w.components[id].connected && w.components[id].lastSeen == Some(r.at)
                  && w.components[id].autopilot == r.autopilot)
            && (!r.heartbeat ==>
                  && w.connected == v.connected && w.lastSeen == v.lastSeen
                  && w.components[id].connected == (id in v.components && v.components[id].connected)
                  && w.components[id].lastSeen == (if id in v.components then v.components[id].lastSeen else None)
                  && w.components[id].autopilot == (id in v.components && v.components[id].autopilot))
  {
  }

  /** No other connected component was heard after the message was stamped. */
  ghost predicate InTime(v: Vehicle, id: nat, at: real) {
    forall other :: other in v.components && other != id && v.components[other].connected ==> HeardBy(v.components[other], Some(at))
  }

  lemma ObservedIsSensible(v: Vehicle, id: nat, r: Report, selected: Option<nat>)
    requires Sensible(v)
    requires var w := Observed(v, id, r);
             if r.heartbeat then SelectionAfter(w, selected) else selected == v.selected
    ensures Sensible(Observed(v, id, r).(selected := selected))
  {
    if r.heartbeat {
      SelectionSettles(Observed(v, id, r), selected);
    }
  }

  /** A heartbeat puts the vehicle in step exactly when it is in time; other messages change nothing in this. */
  lemma ObservedInStep(v: Vehicle, id: nat, r: Report, selected: Option<nat>)
    requires Sensible(v)
    ensures InStep(Observed(v, id, r).(selected := selected)) <==> if r.heartbeat then InTime(v, id, r.at) else InStep(v)
  {
    var w := Observed(v, id, r).(selected := selected);
    if r.heartbeat {
      assert HeardLast(w, id);
      if InStep(w) {
        forall other | other in v.components && other != id && v.components[other].connected
          ensures HeardBy(v.components[other], Some(r.at))
        {
          assert w.components[other] == v.components[other];
        }
      }
    } else {
      assert forall x :: HeardLast(w, x) <==> HeardLast(v, x);
      if InStep(w) {
        forall x | x in v.components && v.components[x].connected ensures v.connected && HeardBy(v.components[x], v.lastSeen) {
          assert w.components[x].connected;
        }
      }
    }
  }

  /**
   * After a heartbeat, the vehicle will be connected exactly when a component is, at whatever time
   * the next expiry runs, if and only if the heartbeat is in time.
   */
  lemma RightIffInTime(v: Vehicle, id: nat, r: Report, timeout: real)
    requires Sensible(v) && r.heartbeat
    ensures (forall now :: ShowsComponents(ExpiredVehicle(Observed(v, id, r), now, timeout))) <==> InTime(v, id, r.at)
  {
    var w := Observed(v, id, r);
    assert w == w.(selected := w.selected);
    ObservedInStep(v, id, r, w.selected);
    if InTime(v, id, r.at) {
      forall now ensures ShowsComponents(ExpiredVehicle(w, now, timeout)) {
        ExpiredInStep(w, now, timeout);
        ConnectedThroughComponent(ExpiredVehicle(w, now, timeout));
      }
    } else {
      var x :| x in v.components && x != id && v.components[x].connected && !HeardBy(v.components[x], Some(r.at));
      LateShows(v, id, r, x, timeout);
    }
  }

  /** A late heartbeat takes the vehicle down while the component heard later is still up. */
  lemma LateShows(v: Vehicle, id: nat, r: Report, x: nat, timeout: real)
    requires Sensible(v) && r.heartbeat
    requires x in v.components && x != id && v.components[x].connected && !HeardBy(v.components[x], Some(r.at))
    ensures !ShowsComponents(ExpiredVehicle(Observed(v, id, r), r.at + timeout, timeout))
  {
    var late := ExpiredVehicle(Observed(v, id, r), r.at + timeout, timeout);
    assert x in late.components && late.components[x].connected;
  }

  lemma ConnectedThroughComponent(v: Vehicle)
    requires InStep(v)
    ensures ShowsComponents(v)
  {
    if v.connected {
      var id :| HeardLast(v, id);
      assert v.components[id].connected;
    }
  }

  /**
   * For example, a heartbeat stamped before the one of another component was handled makes the
   * vehicle time out while that component is still connected.
   */
  lemma LateHeartbeatBreaks()
    ensures exists v: Vehicle, r: Report ::
              VehicleOk(v) && r.heartbeat && !ShowsComponents(ExpiredVehicle(Observed(v, 2, r), 6.0, 5.0))
  {
    var first := Component(true, true, Some(4.0), Some(4.0));
    var v := Vehicle(true, Some(4.0), Some(4.0), Some(1), map[1 := first]);
    var r := Report(Some(1), Some(2), true, false, 1.0);
    assert HeardLast(v, 1);
    LateShows(v, 2, r, 1, 5.0);
    assert VehicleOk(v) && r.heartbeat && !ShowsComponents(ExpiredVehicle(Observed(v, 2, r), 6.0, 5.0));
  }

  predicate TimedOut(lastSeen: Option<real>, now: real, timeout: real) {
    lastSeen.Some? && now - lastSeen.value >= timeout
  }

  function ExpiredComponent(c: Component, now: real, timeout: real): Component {
    if c.connected && TimedOut(c.lastSeen, now, timeout) then c.(connected := false) else c
  }

  /** Every endpoint of the vehicle that was not heard for the timeout is disconnected. */
  function ExpiredVehicle(v: Vehicle, now: real, timeout: real): Vehicle {
    var w := if v.connected && TimedOut(v.lastSeen, now, timeout) then v.(connected := false) else v;
    w.(components := map id | id in v.components :: ExpiredComponent(v.components[id], now, timeout))
  }

  /** Of an endpoint, expiry changes at most that it is connected: it no longer is if it was not heard for the timeout. */
  lemma ExpiredShows(v: Vehicle, now: real, timeout: real)
    ensures var w := ExpiredVehicle(v, now, timeout);
            && (w.connected <==> v.connected && !(v.lastSeen.Some? && v.lastSeen.value + timeout <= now))
            && w == v.(connected := w.connected, components := w.components)
            && w.components.Keys == v.components.Keys
            && forall id :: id in v.components ==>
                 var c, d := v.components[id], w.components[id];
                 && (d.connected <==> c.connected && !(c.lastSeen.Some? && c.lastSeen.value + timeout <= now))
                 && d == c.(connected := d.connected)
  {
  }

  lemma ExpiredInStep(v: Vehicle, now: real, timeout: real)
    requires InStep(v)
    ensures InStep(ExpiredVehicle(v, now, timeout))
  {
    var w := ExpiredVehicle(v, now, timeout);
    if w.connected {
      var id :| HeardLast(v, id);
      assert HeardLast(w, id);
    }
  }

  /** Expiry leaves a settled selection, and a vehicle that is in step stays so. */
  lemma ExpiredOk(v: Vehicle, now: real, timeout: real, selected: Option<nat>)
    requires Sensible(v) && SelectionAfter(ExpiredVehicle(v, now, timeout), selected)
    ensures var w := ExpiredVehicle(v, now, timeout).(selected := selected);
            Settled(w) && Sensible(w) && (InStep(v) ==> InStep(w))
  {
    var w := ExpiredVehicle(v, now, timeout);
    SelectionSettles(w, selected);
    if InStep(v) {
      ExpiredInStep(v, now, timeout);
      SelectionIsApart(w, selected);
    }
  }

  lemma SelectionIsApart(v: Vehicle, selected: Option<nat>)
    requires InStep(v)
    ensures InStep(v.(selected := selected))
  {
    if v.connected {
      var id :| HeardLast(v, id);
      assert HeardLast(v.(selected := selected), id);
    }
  }

  /** Everything is disconnected; the selection stays as it was. */
  function Stopped(v: Vehicle): Vehicle {
    v.(connected := false, components := map id | id in v.components :: v.components[id].(connected := false))
  }

  /** Stopping disconnects every endpoint and changes nothing else. */
  lemma StoppedShows(v: Vehicle)
    ensures var w := Stopped(v);
            && !w.connected
            && w == v.(connected := false, components := w.components)
            && w.components.Keys == v.components.Keys
            && forall id :: id in v.components ==> w.components[id] == v.components[id].(connected := false)
  {
  }

  lemma RemovalOk(v: Vehicle, id: nat, selected: Option<nat>)
    requires Sensible(v) && id in v.components && !v.components[id].connected
    requires SelectionAfter(v.(components := v.components - {id}), selected)
    ensures var w := v.(components := v.components - {id}, selected := selected);
            Settled(w) && Sensible(w) && (InStep(v) ==> InStep(w))
  {
    var w := v.(components := v.components - {id});
    SelectionSettles(w, selected);
    if InStep(v) && v.connected {
      var x :| HeardLast(v, x);
      assert HeardLast(w.(selected := selected), x);
    }
  }

  // ---------------------------------------------------------------- the registry

  class VehicleRegistry {
    const timeout: real
    var vehicles: map<nat, Vehicle>
    var running: bool
    /** The vehicles whose last heartbeat was not in time. */
    ghost var late: set<nat>

    ghost predicate Valid()
      reads this
    {
      forall s :: s in vehicles ==> Sensible(vehicles[s]) && (s !in late ==> InStep(vehicles[s]))
    }

    constructor (timeout: real)
      ensures Valid() && vehicles == map[] && late == {} && !running && this.timeout == timeout
    {
      this.timeout := timeout;
      vehicles, running, late := map[], false, {};
    }

    method Start()
      requires Valid()
      modifies `running
      ensures Valid() && running
    {
      running := true;
    }

    /** Keeps a live selection; otherwise looks for the lowest live autopilot. */
    method SelectAutopilot(v: Vehicle) returns (selected: Option<nat>)
      ensures SelectionAfter(v, selected)
      ensures selected.Some? ==>
                && selected.value in v.components
                && v.components[selected.value].connected && v.components[selected.value].autopilot
      ensures selected.Some? && selected != v.selected ==>
                forall id :: id in v.components && v.components[id].connected && v.components[id].autopilot ==> selected.value <= id
      ensures selected.None? ==> forall id :: id in v.components && v.components[id].connected ==> !v.components[id].autopilot
      ensures (v.selected.Some? && v.selected.value in v.components
               && v.components[v.selected.value].connected && v.components[v.selected.value].autopilot) ==> selected == v.selected
    {
      if v.selected.Some? && v.selected.value in v.components {
        var current := v.components[v.selected.value];
        if current.connected && current.autopilot {
          return v.selected;
        }
      }
      selected := None;
      var todo := v.components.Keys;
      while todo != {}
        invariant todo <= v.components.Keys
        invariant selected.None? ==> forall id :: id in v.components.Keys - todo ==> !LiveAutopilot(v, id)
        invariant selected.Some? ==> LiveAutopilot(v, selected.value)
        invariant selected.Some? ==> forall id :: id in v.components.Keys - todo && LiveAutopilot(v, id) ==> selected.value <= id
        decreases todo
      {
        var id :| id in todo;
        var c := v.components[id];
        if c.connected && c.autopilot && (selected.None? || id < selected.value) {
          selected := Some(id);
        }
        todo := todo - {id};
      }
      assert forall id :: id in v.components ==> id in v.components.Keys - todo;
      assert forall id :: LiveAutopilot(v, id) <==> id in v.components && v.components[id].connected && v.components[id].autopilot;
      if selected.None? {
        assert LiveAutopilots(v) == {};
      } else {
        assert selected.value in LiveAutopilots(v);
      }
    }

    /** Only an autopilot's heartbeat creates a vehicle; any message creates a component of a known one. */
    method Accept(r: Report)
      requires Valid()
      modifies this
      ensures Valid() && running == old(running)
      ensures var known := Identified(r) && old(running) && (r.system.value in old(vehicles) || (r.heartbeat && r.autopilot));
              if !known then vehicles == old(vehicles) && late == old(late)
              else
                var s := r.system.value;
                var v := if s in old(vehicles) then old(vehicles)[s] else NewVehicle();
                var w := Observed(v, r.component.value, r);
                && s in vehicles
                && vehicles == old(vehicles)[s := w.(selected := vehicles[s].selected)]
                && (if r.heartbeat then SelectionAfter(w, vehicles[s].selected) && Settled(vehicles[s])
                    else vehicles[s].selected == v.selected)
                && late == (if !r.heartbeat then old(late)
                            else if InTime(v, r.component.value, r.at) then old(late) - {s}
                            else old(late) + {s})
    {
      if !Identified(r) || !running {
        return;
      }
      var s := r.system.value;
      if s !in vehicles && (!r.heartbeat || !r.autopilot) {
        return;
      }
      var v := if s in vehicles then vehicles[s] else NewVehicle();
      var w := Observed(v, r.component.value, r);
      var selected := v.selected;
      if r.heartbeat {
        selected := SelectAutopilot(w);
        SelectionSettles(w, selected);
      }
      ObservedIsSensible(v, r.component.value, r, selected);
      ObservedInStep(v, r.component.value, r, selected);
      NewIsInStep();
      hide Sensible, InStep, InTime, SelectionAfter, Settled, Observed;
      vehicles := vehicles[s := w.(selected := selected)];
      if r.heartbeat {
        late := if InTime(v, r.component.value, r.at) then late - {s} else late + {s};
      }
    }

    /** Disconnects what was not heard for the timeout, and selects again. */
    method Expire(now: real)
      requires Valid()
      modifies `vehicles
      ensures Valid()
      ensures !running ==> vehicles == old(vehicles)
      ensures running ==> vehicles.Keys == old(vehicles).Keys
      ensures running ==> forall s :: s in vehicles ==>
                var w := ExpiredVehicle(old(vehicles)[s], now, timeout);
                vehicles[s] == w.(selected := vehicles[s].selected) && SelectionAfter(w, vehicles[s].selected) && Settled(vehicles[s])
    {
      hide Sensible, InStep, SelectionAfter, Settled, ExpiredVehicle;
      ghost var before := vehicles;
      if !running {
        return;
      }
      var todo := vehicles.Keys;
      while todo != {}
        invariant todo <= vehicles.Keys == before.Keys
        invariant Valid()
        invariant forall s :: s in todo ==> vehicles[s] == before[s]
        invariant forall s :: s in before.Keys - todo ==> HasExpired(before[s], vehicles[s], now)
        decreases todo
      {
        var s :| s in todo;
        var w := ExpiredVehicle(vehicles[s], now, timeout);
        var selected := SelectAutopilot(w);
        ExpiredOk(vehicles[s], now, timeout, selected);
        vehicles := vehicles[s := w.(selected := selected)];
        todo := todo - {s};
      }
      forall s | s in vehicles ensures HasExpired(before[s], vehicles[s], now) {
        assert s in before.Keys - todo;
      }
    }

    ghost predicate HasExpired(v: Vehicle, after: Vehicle, now: real) {
      var w := ExpiredVehicle(v, now, timeout);
      after == w.(selected := after.selected) && SelectionAfter(w, after.selected) && Settled(after)
    }

    /** Forgets a disconnected component. */
    method RemoveComponent(s: nat, id: nat) returns (r: Result<bool, RegistryError>)
      requires Valid() && s in vehicles
      modifies `vehicles
      ensures Valid()
      ensures r == if id !in old(vehicles)[s].components then Ok(false)
                   else if old(vehicles)[s].components[id].connected then Err(StillConnected)
                   else Ok(true)
      ensures r != Ok(true) ==> vehicles == old(vehicles)
      ensures r == Ok(true) ==>
                var w := old(vehicles)[s].(components := old(vehicles)[s].components - {id});
                && s in vehicles
                && vehicles == old(vehicles)[s := w.(selected := vehicles[s].selected)]
                && SelectionAfter(w, vehicles[s].selected)
                && (old(Settled(vehicles[s])) ==> vehicles[s].selected == old(vehicles)[s].selected)
    {
      var v := vehicles[s];
      if id !in v.components {
        return Ok(false);
      }
      if v.components[id].connected {
        return Err(StillConnected);
      }
      var w := v.(components := v.components - {id});
      var selected := SelectAutopilot(w);
      RemovalOk(v, id, selected);
      RemovalKeepsLive(v, id);
      hide Sensible, InStep;
      vehicles := vehicles[s := w.(selected := selected)];
      return Ok(true);
    }

    /** Forgets a disconnected vehicle; only after a late heartbeat can it still have live components. */
    method RemoveVehicle(s: nat) returns (r: Result<bool, RegistryError>)
      requires Valid()
      modifies `vehicles
      ensures Valid()
      ensures r == if s !in old(vehicles) then Ok(false)
                   else if old(vehicles)[s].connected then Err(StillConnected)
                   else if exists id :: id in old(vehicles)[s].components && old(vehicles)[s].components[id].connected
                     then Err(LiveComponents)
                   else Ok(true)
      ensures s !in late ==> r != Err(LiveComponents)
      ensures vehicles == if r == Ok(true) then old(vehicles) - {s} else old(vehicles)
    {
      if s !in vehicles {
        return Ok(false);
      }
      if vehicles[s].connected {
        return Err(StillConnected);
      }
      if exists id :: id in vehicles[s].components && vehicles[s].components[id].connected {
        return Err(LiveComponents);
      }
      hide Sensible, InStep;
      vehicles := vehicles - {s};
      return Ok(true);
    }

    /** Disconnects every endpoint; selections are left alone. */
    method Stop()
      requires Valid()
      modifies this
      ensures Valid() && !running && late == {}
      ensures vehicles == map s | s in old(vehicles) :: Stopped(old(vehicles)[s])
    {
      running := false;
      vehicles := map s | s in vehicles :: Stopped(vehicles[s]);
      late := {};
    }
  }

  lemma NewIsInStep()
    ensures Sensible(NewVehicle()) && InStep(NewVehicle())
  {
  }

  /** Removing what is not connected changes neither what is live nor a settled selection. */
  lemma RemovalKeepsLive(v: Vehicle, id: nat)
    requires id in v.components && !v.components[id].connected
    ensures var w := v.(components := v.components - {id});
            LiveAutopilots(w) == LiveAutopilots(v) && forall x :: LiveAutopilot(w, x) == LiveAutopilot(v, x)
  {
    var w := v.(components := v.components - {id});
    assert forall x :: LiveAutopilot(w, x) == LiveAutopilot(v, x);
  }
}
