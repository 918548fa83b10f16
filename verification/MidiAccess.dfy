/**
 The grant table of leased virtual ports (crates/vantage-point/src/midi_access.rs) and the two ways
 a service snapshot is read: as grants, and as the display names of the granted ports
 (crates/vantage-point/src/devices.rs:147-185 and 993-1014).
 */
module MidiAccess {
  import opened Prelude

  type Port = string

  datatype OwnedPorts = OwnedPorts(device: string, lease: string, inputs: seq<Port>, outputs: seq<Port>)

  type Table = seq<OwnedPorts>

  // ----- names -----

  const SEPARATOR := " | "

  predicate SeparatorAt(native: Port, i: nat) {
    i <= |native| && SEPARATOR <= native[i..]
  }

  /** What follows the first separator, if there is one. */
  function Physical(native: Port): Option<string> {
    PhysicalFrom(native, 0)
  }

  function PhysicalFrom(native: Port, i: nat): Option<string>
    requires i <= |native|
    decreases |native| - i
  {
    if SeparatorAt(native, i) then Some(native[i + |SEPARATOR|..])
    else if i == |native| then None
    else PhysicalFrom(native, i + 1)
  }

  /** The name is what follows the first separator from `i` on; there is none exactly if there is no separator. */
  lemma {:induction false} PhysicalFollowsTheFirstSeparator(native: Port, i: nat) returns (k: nat)
    requires i <= |native|
    ensures i <= k && forall j :: i <= j < k && j <= |native| ==> !SeparatorAt(native, j)
    ensures if SeparatorAt(native, k) then PhysicalFrom(native, i) == Some(native[k + |SEPARATOR|..])
            else k > |native| && PhysicalFrom(native, i) == None
    decreases |native| - i
  {
    if SeparatorAt(native, i) {
      k := i;
    } else if i == |native| {
      k := i + 1;
    } else {
      k := PhysicalFollowsTheFirstSeparator(native, i + 1);
    }
  }

  predicate BarAt(native: Port, k: nat) {
    k + 3 <= |native| && native[k] == ' ' && native[k + 1] == '|' && native[k + 2] == ' '
  }

  /** In plain characters: the suffix is what follows the first bar between blanks, and there is none without one. */
  lemma PhysicalIsTheSuffix(native: Port, k: nat)
    ensures BarAt(native, k) && (forall j: nat :: j < k ==> !BarAt(native, j)) ==>
      Physical(native) == Some(native[k + 3..])
    ensures (forall j: nat :: !BarAt(native, j)) ==> Physical(native) == None
  {
    forall j | 0 <= j <= |native| ensures SeparatorAt(native, j) <==> BarAt(native, j) {
      assert BarAt(native, j) ==> native[j..][..3] == " | ";
      assert SeparatorAt(native, j) ==> native[j] == native[j..][0] && native[j + 1] == native[j..][1];
    }
    var first := PhysicalFollowsTheFirstSeparator(native, 0);
    if BarAt(native, k) && forall j: nat :: j < k ==> !BarAt(native, j) {
      assert first == k;
    }
  }

  predicate Answers(native: Port, name: string) {
    native == name || Physical(native) == Some(name)
  }

  // ----- lookups -----

  function PortsOf(p: OwnedPorts, input: bool): seq<Port> {
    if input then p.inputs else p.outputs
  }

  /** The first name that answers, in table order. */
  function FindIn(names: seq<Port>, name: string): (found: Option<Port>)
    ensures found.Some? ==> found.value in names && Answers(found.value, name)
    ensures found.None? ==> forall n <- names :: !Answers(n, name)
  {
    if names == [] then None
    else if Answers(names[0], name) then Some(names[0])
    else FindIn(names[1..], name)
  }

  predicate Permits(owned: Table, input: bool, port: Port) {
    exists p <- owned :: port in PortsOf(p, input)
  }

  function Resolve(owned: Table, name: string, input: bool): (found: Option<Port>)
    ensures found.Some? ==> Permits(owned, input, found.value) && Answers(found.value, name)
    ensures found.None? ==> forall p <- owned :: forall n <- PortsOf(p, input) :: !Answers(n, name)
  {
    if owned == [] then None
    else
      var first := FindIn(PortsOf(owned[0], input), name);
      if first.Some? then first else Resolve(owned[1..], name, input)
  }

  /** Among the names of one kind in table order, grant by grant, the first one that answers is taken. */
  function PortsInOrder(owned: Table, input: bool): seq<Port> {
    if owned == [] then [] else (if input then owned[0].inputs else owned[0].outputs) + PortsInOrder(owned[1..], input)
  }

  /** The name is neither the port's own nor its suffix. */
  predicate Silent(native: Port, name: string) {
    native != name && Physical(native) != Some(name)
  }

  lemma {:induction false} FirstFound(names: seq<Port>, name: string, k: nat)
    requires k < |names| && !Silent(names[k], name) && forall j :: 0 <= j < k ==> Silent(names[j], name)
    ensures FindIn(names, name) == Some(names[k])
  {
    if k == 0 {
    } else {
      FirstFound(names[1..], name, k - 1);
    }
  }

  lemma {:induction false} NoneFound(names: seq<Port>, name: string)
    requires forall n <- names :: Silent(n, name)
    ensures FindIn(names, name) == None
  {
    if names == [] {
    } else {
      assert Silent(names[0], name);
      NoneFound(names[1..], name);
    }
  }

  /** Nothing is found if no name of that kind answers. */
  lemma {:induction false} NothingAnswers(owned: Table, name: string, input: bool)
    requires forall n <- PortsInOrder(owned, input) :: Silent(n, name)
    ensures Resolve(owned, name, input) == None
  {
    if owned == [] {
    } else {
      var mine, others := if input then owned[0].inputs else owned[0].outputs, PortsInOrder(owned[1..], input);
      assert PortsInOrder(owned, input) == mine + others;
      assert forall n <- mine :: n in mine + others;
      NoneFound(mine, name);
      assert forall n <- others :: n in mine + others;
      NothingAnswers(owned[1..], name, input);
    }
  }

  lemma SilentInParts(mine: seq<Port>, others: seq<Port>, name: string, k: nat)
    requires k <= |mine + others| && forall j :: 0 <= j < k ==> Silent((mine + others)[j], name)
    ensures forall j :: 0 <= j < k && j < |mine| ==> Silent(mine[j], name)
    ensures forall j :: 0 <= j < k - |mine| ==> Silent(others[j], name)
  {
    forall j | 0 <= j < k && j < |mine| ensures Silent(mine[j], name) {
      assert (mine + others)[j] == mine[j];
    }
    forall j | 0 <= j < k - |mine| ensures Silent(others[j], name) {
      assert (mine + others)[|mine| + j] == others[j];
    }
  }

  lemma {:induction false} FirstAnswerIsTaken(owned: Table, name: string, input: bool, k: nat)
    requires k < |PortsInOrder(owned, input)| && !Silent(PortsInOrder(owned, input)[k], name)
    requires forall j :: 0 <= j < k ==> Silent(PortsInOrder(owned, input)[j], name)
    ensures Resolve(owned, name, input) == Some(PortsInOrder(owned, input)[k])
  {
    var mine, others := if input then owned[0].inputs else owned[0].outputs, PortsInOrder(owned[1..], input);
    SilentInParts(mine, others, name, k);
    if k < |mine| {
      FirstFound(mine, name, k);
    } else {
      NoneFound(mine, name);
      FirstAnswerIsTaken(owned[1..], name, input, k - |mine|);
    }
  }

  function Devices(owned: Table): set<string> {
    set p <- owned :: p.device
  }

  /** The devices of the grants that the next table no longer holds exactly as they were. */
  function Released(owned: Table, next: Table): (released: seq<string>)
    ensures forall d :: d in released <==> exists p <- owned :: p !in next && p.device == d
  {
    if owned == [] then []
    else if owned[0] in next then Released(owned[1..], next)
    else [owned[0].device] + Released(owned[1..], next)
  }

  /** Every port, in or out, of the released devices' old grants. */
  predicate Revoked(owned: Table, next: Table, port: Port) {
    exists p <- owned :: p.device in Released(owned, next) && (port in p.inputs || port in p.outputs)
  }

  class Access {
    var owned: Table

    constructor ()
      ensures owned == []
    {
      owned := [];
    }

    method Replace(next: Table) returns (released: seq<string>)
      modifies this
      ensures owned == next && released == Released(old(owned), next)
    {
      released := Released(owned, next);
      owned := next;
    }

    function Input(name: string): (port: Option<Port>)
      reads this
      ensures port.Some? ==> PermitsInput(port.value)
    {
      Resolve(owned, name, true)
    }

    function Output(name: string): (port: Option<Port>)
      reads this
      ensures port.Some? ==> PermitsOutput(port.value)
    {
      Resolve(owned, name, false)
    }

    predicate PermitsInput(port: Port)
      reads this
    {
      Permits(owned, true, port)
    }

    predicate PermitsOutput(port: Port)
      reads this
    {
      Permits(owned, false, port)
    }
  }

  /**
   A port the old table permits and the revocation spares belongs to one and the same grant —
   device, lease token and ports — before and after: a new token closes even a reused port name.
   */
  lemma SparedPortKeepsItsGrant(owned: Table, next: Table, port: Port)
    requires Permits(owned, true, port) && !Revoked(owned, next, port)
    ensures exists p <- owned :: p in next && port in p.inputs
  {
    var p :| p in owned && port in PortsOf(p, true);
    assert p !in next ==> p.device in Released(owned, next);
  }

  // ----- service snapshots -----

  datatype Phase = Active | Releasing | Other

  datatype LeaseInfo = LeaseInfo(session: string, token: string)

  datatype Device = Device(id: string, phase: Phase, lease: Option<LeaseInfo>, inputs: seq<Port>, outputs: seq<Port>)

  datatype Snapshot = Snapshot(session: string, devices: seq<Device>)

  /** Granted to this very session. */
  predicate Granted(s: Snapshot, d: Device) {
    d.phase.Active? && d.lease.Some? && d.lease.value.session == s.session
  }

  function GrantsFrom(s: Snapshot, i: nat): (owned: Table)
    requires i <= |s.devices|
    ensures forall p :: p in owned <==>
      exists k | i <= k < |s.devices| :: Granted(s, s.devices[k]) && p == GrantOf(s.devices[k])
    decreases |s.devices| - i
  {
    if i == |s.devices| then []
    else if Granted(s, s.devices[i]) then [GrantOf(s.devices[i])] + GrantsFrom(s, i + 1)
    else GrantsFrom(s, i + 1)
  }

  function GrantOf(d: Device): OwnedPorts {
    OwnedPorts(d.id, if d.lease.Some? then d.lease.value.token else "", d.inputs, d.outputs)
  }

  function Grants(s: Option<Snapshot>, enabled: bool): Table {
    if s.Some? && enabled then GrantsFrom(s.value, 0) else []
  }

  /** The table holds exactly the devices that are active on a lease of this very session, each under its token. */
  lemma GrantsAreThisSessions(s: Snapshot, p: OwnedPorts)
    ensures p in Grants(Some(s), true) <==>
      exists d <- s.devices :: d.phase == Active && d.lease.Some? && d.lease.value.session == s.session
        && p == OwnedPorts(d.id, d.lease.value.token, d.inputs, d.outputs)
    ensures Grants(Some(s), false) == [] && Grants(None, true) == []
  {
    if d :|
      && d in s.devices && d.phase == Active && d.lease.Some? && d.lease.value.session == s.session
      && p == OwnedPorts(d.id, d.lease.value.token, d.inputs, d.outputs)
    {
      var k :| 0 <= k < |s.devices| && s.devices[k] == d;
      assert Granted(s, s.devices[k]) && p == GrantOf(s.devices[k]);
    }
  }

  /** The devices whose release the service waits for this session to confirm. */
  function Awaiting(s: Option<Snapshot>): set<string> {
    if s.None? then {}
    else
      set d <- s.value.devices | d.phase.Releasing? && d.lease.Some? && d.lease.value.session == s.value.session :: d.id
  }

  predicate ShownReleasing(s: Snapshot, id: string) {
    exists d <- s.devices :: d.id == id && d.phase == Releasing && d.lease.Some? && d.lease.value.session == s.session
  }

  lemma AwaitingAreThisSessions(s: Snapshot, id: string)
    ensures id in Awaiting(Some(s)) <==> ShownReleasing(s, id)
    ensures Awaiting(None) == {}
  {
    if d :|
      && d in s.devices && d.id == id && d.phase == Releasing && d.lease.Some? && d.lease.value.session == s.session
    {
      assert d.id in Awaiting(Some(s));
    }
  }

  type Names = map<string, (bool, bool)>

  function Marked(ports: Names, name: string, input: bool): Names {
    var flags := if name in ports then ports[name] else (false, false);
    ports[name := if input then (true, flags.1) else (flags.0, true)]
  }

  predicate Flagged(ports: Names, name: string, input: bool) {
    name in ports && if input then ports[name].0 else ports[name].1
  }

  ghost predicate NamedIn(names: seq<Port>, name: string) {
    name != "" && exists n <- names :: Physical(n) == Some(name)
  }

  lemma NamedOneMore(names: seq<Port>, i: nat, name: string)
    requires i < |names|
    ensures NamedIn(names[..i + 1], name) <==>
      NamedIn(names[..i], name) || (name != "" && Physical(names[i]) == Some(name))
  {
    assert names[..i + 1] == names[..i] + [names[i]];
    if name != "" && Physical(names[i]) == Some(name) {
      assert names[i] in names[..i + 1];
    }
  }

  method MarkNames(ports: Names, names: seq<Port>, input: bool) returns (marked: Names)
    ensures forall name, dir :: Flagged(marked, name, dir) <==>
      Flagged(ports, name, dir) || (dir == input && NamedIn(names, name))
    ensures forall name <- marked :: name in ports || NamedIn(names, name)
  {
    marked := ports;
    for i := 0 to |names|
      invariant forall name, dir :: Flagged(marked, name, dir) <==>
        Flagged(ports, name, dir) || (dir == input && NamedIn(names[..i], name))
      invariant forall name <- marked :: name in ports || NamedIn(names[..i], name)
    {
      var physical := Physical(names[i]);
      ghost var before := marked;
      if physical.Some? && physical.value != "" {
        marked := Marked(marked, physical.value, input);
      }
      forall name
        ensures NamedIn(names[..i + 1], name) <==>
          NamedIn(names[..i], name) || (name != "" && physical == Some(name))
      {
        NamedOneMore(names, i, name);
      }
      forall name, dir
        ensures Flagged(marked, name, dir) <==>
          Flagged(before, name, dir) || (dir == input && name != "" && physical == Some(name))
      {
      }
    }
    assert names[..|names|] == names;
  }

  ghost predicate DisplaysBefore(s: Snapshot, i: nat, name: string, input: bool)
    requires i <= |s.devices|
  {
    exists k | 0 <= k < i :: Granted(s, s.devices[k]) && NamedIn(PortsOf(GrantOf(s.devices[k]), input), name)
  }

  /** Some device active on a lease of this very session has a port of that kind whose suffix is the name. */
  ghost predicate Displays(s: Snapshot, name: string, input: bool) {
    exists d <- s.devices ::
      && d.phase == Active && d.lease.Some? && d.lease.value.session == s.session
      && NamedIn(if input then d.inputs else d.outputs, name)
  }

  lemma DisplaysAll(s: Snapshot, name: string, input: bool)
    ensures DisplaysBefore(s, |s.devices|, name, input) <==> Displays(s, name, input)
  {
    if d :|
      && d in s.devices && d.phase == Active && d.lease.Some? && d.lease.value.session == s.session
      && NamedIn(if input then d.inputs else d.outputs, name)
    {
      var k :| 0 <= k < |s.devices| && s.devices[k] == d;
      assert Granted(s, s.devices[k]) && NamedIn(PortsOf(GrantOf(s.devices[k]), input), name);
    }
  }

  /** The display names of the granted ports; ports of other sessions and names without a suffix are not shown. */
  method SnapshotPorts(s: Option<Snapshot>) returns (ports: Names)
    ensures s.None? ==> ports == map[]
    ensures s.Some? ==> forall name, input :: Flagged(ports, name, input) <==> Displays(s.value, name, input)
    ensures forall name <- ports :: Flagged(ports, name, true) || Flagged(ports, name, false)
  {
    ports := map[];
    if s.None? {
      return;
    }
    var devices := s.value.devices;
    for i := 0 to |devices|
      invariant forall name, input :: Flagged(ports, name, input) <==> DisplaysBefore(s.value, i, name, input)
      invariant forall name <- ports :: Flagged(ports, name, true) || Flagged(ports, name, false)
    {
      if Granted(s.value, devices[i]) {
        var before := ports;
        ports := MarkNames(ports, devices[i].inputs, true);
        ports := MarkNames(ports, devices[i].outputs, false);
        forall name, input ensures Flagged(ports, name, input) <==> DisplaysBefore(s.value, i + 1, name, input) {
          assert NamedIn(PortsOf(GrantOf(devices[i]), input), name) ==> DisplaysBefore(s.value, i + 1, name, input);
        }
        forall name | name in ports ensures Flagged(ports, name, true) || Flagged(ports, name, false) {
          assert name in before || NamedIn(devices[i].inputs, name) || NamedIn(devices[i].outputs, name);
        }
      }
    }
    forall name, input ensures Flagged(ports, name, input) <==> Displays(s.value, name, input) {
      DisplaysAll(s.value, name, input);
    }
  }

  /** Every shown input name resolves, in the grant table of the same snapshot, to a granted port of that name. */
  lemma ShownNamesResolve(s: Snapshot, name: string, input: bool)
    requires Displays(s, name, input)
    ensures Resolve(Grants(Some(s), true), name, input).Some?
  {
    DisplaysAll(s, name, input);
    var k :| 0 <= k < |s.devices| && Granted(s, s.devices[k]) && NamedIn(PortsOf(GrantOf(s.devices[k]), input), name);
    assert GrantOf(s.devices[k]) in Grants(Some(s), true);
  }
}
