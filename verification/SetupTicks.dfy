/**
 A tick of the synchroniser is a run of the protocol: it first drops entries, and then takes one status after
 another (crates/vantage-point/src/roto_setup_sync.rs:63-171). So what SetupProtocol proves of every run holds
 of every sequence of ticks.
 */
module SetupTicks {
  import opened Prelude
  import opened SetupState
  import opened SetupFiles
  import opened SetupSync
  import opened SetupCoupling
  import opened SetupProtocol

  function Taken(s: System, pin: Hash, st: Status, w: World): System {
    if st.lease.Some? then Processed(s, st, pin, w) else s
  }

  /**
   The outside world of a turn is a possible one: a fresh task id,
   and an answer the service has given or an error.
   */
  predicate PossibleTurn(s: System, st: Status, w: World) {
    st.lease.Some? ==> w.id == s.nextId && PossibleOutcome(s, EntryFor(s.sync, st.device, st.lease.value), w)
  }

  /** The states of the turns of a tick, one status after another, in a possible world. */
  predicate Turning(us: seq<System>, pin: Hash, statuses: seq<Status>, worlds: seq<World>) {
    && |statuses| == |worlds| && |us| == |statuses| + 1
    && (forall i :: 0 <= i < |statuses| ==> us[i + 1] == Taken(us[i], pin, statuses[i], worlds[i]))
    && (forall i :: 0 <= i < |statuses| ==> PossibleTurn(us[i], statuses[i], worlds[i]))
  }

  function SentWith(sent: map<nat, Rpc>, rpcs: seq<Rpc>): map<nat, Rpc> {
    if rpcs == [] then sent else SentWith(sent, rpcs[..|rpcs| - 1])[rpcs[|rpcs| - 1].id := rpcs[|rpcs| - 1]]
  }

  function Onto(wire: set<Rpc>, rpcs: seq<Rpc>): set<Rpc> {
    wire + set rpc <- rpcs
  }

  /** The system shows the result of a tick: the client's state and the requests it handed out. */
  predicate Shows(s: System, before: System, v: SyncView, rpcs: seq<Rpc>) {
    && s.sync == v && s.wire == Onto(before.wire, rpcs) && s.sent == SentWith(before.sent, rpcs)
    && s.history == before.history && s.replies == before.replies
  }

  lemma OneMoreSent(sent: map<nat, Rpc>, rpcs: seq<Rpc>, rpc: Rpc)
    ensures SentWith(sent, rpcs + [rpc]) == SentWith(sent, rpcs)[rpc.id := rpc]
    ensures forall wire :: Onto(wire, rpcs + [rpc]) == Onto(wire, rpcs) + {rpc}
  {
    assert (rpcs + [rpc])[..|rpcs|] == rpcs;
  }

  lemma RequestHasItsId(d: DeviceView, c: Cache, pin: Hash, st: Status, lease: Lease, w: World)
    ensures var rpc := DeviceTurn(d, c, pin, st, lease, w).rpc; rpc.Some? ==> rpc.value.id == w.id
  {
  }

  lemma TakenShows(s: System, before: System, v: SyncView, rpcs: seq<Rpc>, pin: Hash, st: Status, w: World)
    requires Shows(s, before, v, rpcs)
    ensures var (next, more) := StatusTurn(v, pin, st, w); Shows(Taken(s, pin, st, w), before, next, rpcs + more)
  {
    if st.lease.Some? {
      var d := EntryFor(v, st.device, st.lease.value);
      var t := DeviceTurn(d, v.cache, pin, st, st.lease.value, w);
      if t.rpc.Some? {
        RequestHasItsId(d, v.cache, pin, st, st.lease.value, w);
        OneMoreSent(before.sent, rpcs, t.rpc.value);
      } else {
        assert rpcs + [] == rpcs;
      }
    } else {
      assert rpcs + [] == rpcs;
    }
  }

  /** One turn is one step of the protocol, or none without a lease. */
  lemma TurnLeads(o: System, u: System, st: Status, pin: Hash, w: World, readable: bool)
    requires LeadsTo(o, u, readable) && u.history != [] && CutFrom(u.history, st) && PossibleTurn(u, st, w)
    requires st.lease.Some? ==> EntryFor(u.sync, st.device, st.lease.value).lease == st.lease.value
    ensures LeadsTo(o, Taken(u, pin, st, w), readable)
  {
    if st.lease.Some? {
      LeadStep(o, u, Process(st, pin, w), readable);
    }
  }

  lemma OneMoreTurn(o: System, s: System, u: System, v: SyncView, rpcs: seq<Rpc>, st: Status, pin: Hash, w: World,
      readable: bool)
    requires Shows(u, s, v, rpcs) && LeadsTo(o, u, readable) && s.history != []
    requires CutFrom(s.history, st) && PossibleTurn(u, st, w)
    requires st.lease.Some? ==> EntryFor(v, st.device, st.lease.value).lease == st.lease.value
    ensures var (next, more) := StatusTurn(v, pin, st, w); Shows(Taken(u, pin, st, w), s, next, rpcs + more)
    ensures LeadsTo(o, Taken(u, pin, st, w), readable)
  {
    TakenShows(u, s, v, rpcs, pin, st, w);
    TurnLeads(o, u, st, pin, w, readable);
  }

  lemma {:induction false} TurnsAreARun(o: System, us: seq<System>, pin: Hash, statuses: seq<Status>,
                                        worlds: seq<World>, n: nat, readable: bool)
    requires Turning(us, pin, statuses, worlds) && n <= |statuses| && OneLease(statuses) && us[0].history != []
    requires forall st <- statuses :: CutFrom(us[0].history, st)
    requires AllHeld(us[0].sync.devices, statuses) && LeadsTo(o, us[0], readable)
    ensures var turns := Turns(us[0].sync, pin, statuses, worlds, n); Shows(us[n], us[0], turns.0, turns.1)
    ensures LeadsTo(o, us[n], readable)
  {
    if n == 0 {
      assert Onto(us[0].wire, []) == us[0].wire;
    } else {
      TurnsAreARun(o, us, pin, statuses, worlds, n - 1, readable);
      TurnsMeetTheirLease(us[0].sync, pin, statuses, worlds, n - 1);
      var turns := Turns(us[0].sync, pin, statuses, worlds, n - 1);
      assert us[n - 1 + 1] == us[n] && statuses[n - 1] in statuses;
      OneMoreTurn(o, us[0], us[n - 1], turns.0, turns.1, statuses[n - 1], pin, worlds[n - 1], readable);
    }
  }

  // ----- dropping entries -----

  lemma Drops(o: System, s: System, dropped: set<string>, readable: bool) returns (t: System)
    requires LeadsTo(o, s, readable) && s.history != [] && dropped <= s.sync.devices.Keys
    ensures LeadsTo(o, t, readable) && t == s.(sync := s.sync.(devices := s.sync.devices - dropped))
    decreases dropped
  {
    if dropped == {} {
      t := s;
      assert s.sync.devices - dropped == s.sync.devices;
    } else {
      var d :| d in dropped;
      LeadStep(o, s, Release(d), readable);
      t := Drops(o, Next(s, Release(d)), dropped - {d}, readable);
      assert s.sync.devices - {d} - (dropped - {d}) == s.sync.devices - dropped;
    }
  }

  lemma RetainsDrops(o: System, s: System, statuses: seq<Status>, readable: bool) returns (t: System)
    requires LeadsTo(o, s, readable) && s.history != []
    ensures LeadsTo(o, t, readable) && t == s.(sync := s.sync.(devices := Retained(s.sync.devices, statuses)))
  {
    var dropped := set d | d in s.sync.devices && !Held(statuses, d, s.sync.devices[d].lease);
    t := Drops(o, s, dropped, readable);
    assert s.sync.devices - dropped == Retained(s.sync.devices, statuses);
  }

  /**
   A tick over statuses of the service that give each device one lease leads, by the steps of the protocol alone, to
   the client's state, the requests on the wire and the requests sent that the tick yields.
   */
  lemma TickIsARun(o: System, s: System, pin: Option<Hash>, statuses: seq<Status>, worlds: seq<World>, us: seq<System>,
                   readable: bool)
    returns (t: System)
    requires LeadsTo(o, s, readable) && s.history != [] && |statuses| == |worlds| && OneLease(statuses)
    requires forall st <- statuses :: CutFrom(s.history, st)
    requires pin.Some? ==>
      Turning(us, pin.value, statuses, worlds)
        && us[0] == s.(sync := s.sync.(devices := Retained(s.sync.devices, statuses)))
    ensures LeadsTo(o, t, readable)
    ensures var (v, rpcs) := Ticked(s.sync, pin, statuses, worlds); Shows(t, s, v, rpcs)
  {
    t := RetainsDrops(o, s, statuses, readable);
    if pin.Some? {
      TurnsAreARun(o, us, pin.value, statuses, worlds, |statuses|, readable);
      t := us[|statuses|];
    } else {
      assert Onto(s.wire, []) == s.wire;
    }
  }
}
