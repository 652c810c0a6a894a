/**
 * Properties of the CIO2 bridge model: what one candidate does to the
 * bridge, the shape of the graph a connected sensor gets, what a whole
 * pass returns, and how the references the bridge takes are balanced.
 */
module Cio2BridgeProofs {
  import opened Wrappers
  import opened Errno
  import opened Bytes
  import opened Cio2BridgeDefs
  import opened Cio2Bridge

  // ---------------------------------------------------------------------------
  // The endpoint pool
  // ---------------------------------------------------------------------------

  /**
   * The pool has two entries per slot, and for every slot the even entry
   * points at the slot's CIO2 endpoint and the odd one at its sensor endpoint.
   */
  lemma RemoteEndpointPool()
    ensures |RemoteEndpoints| == 2 * MaxConnectedDevices
    ensures forall n :: 0 <= n < MaxConnectedDevices ==>
      RemoteEndpoints[2 * n + EndpointSensor] == RefProp("remote-endpoint", SlotNode(n, SwnodeCio2Endpoint))
    ensures forall n :: 0 <= n < MaxConnectedDevices ==>
      RemoteEndpoints[2 * n + EndpointCio2] == RefProp("remote-endpoint", SlotNode(n, SwnodeSensorEndpoint))
  {
  }

  // ---------------------------------------------------------------------------
  // Following references through the bridge's slots
  // ---------------------------------------------------------------------------

  /** The software node a reference names, if the slot and index exist. */
  function NodeAt(sensors: seq<Sensor>, r: NodeRef): Option<SoftwareNode>
  {
    match r
    case Cio2HidNode => Some(SwNode(Cio2Hid, None, NoProps))
    case SlotNode(k, idx) =>
      if k < |sensors| && idx < |sensors[k].swnodes| then Some(sensors[k].swnodes[idx]) else None
  }

  /** The property buffer a node's `properties` pointer designates. */
  function PropsOf(sensors: seq<Sensor>, p: PropsRef): seq<Property>
  {
    match p
    case NoProps => []
    case DevProps(k) => if k < |sensors| then sensors[k].devProperties else []
    case EpProps(k) => if k < |sensors| then sensors[k].epProperties else []
    case Cio2Props(k) => if k < |sensors| then sensors[k].cio2Properties else []
  }

  /** The target of the first `remote-endpoint` reference before the terminator. */
  function RemoteIn(props: seq<Property>): Option<NodeRef>
  {
    if props == [] || props[0] == Empty then None
    else if props[0].RefProp? && props[0].name == "remote-endpoint" then Some(props[0].target)
    else RemoteIn(props[1..])
  }

  /** The node the `remote-endpoint` property of the node `r` points at. */
  function RemoteOf(sensors: seq<Sensor>, r: NodeRef): Option<NodeRef>
  {
    match NodeAt(sensors, r)
    case Some(SwNode(_, _, p)) => RemoteIn(PropsOf(sensors, p))
    case _ => None
  }

  /** The parent of the node `r`. */
  function ParentOf(sensors: seq<Sensor>, r: NodeRef): Option<NodeRef>
  {
    match NodeAt(sensors, r)
    case Some(SwNode(_, parent, _)) => parent
    case _ => None
  }

  /** The `data-lanes` values in a property buffer, before its terminator. */
  function LanesIn(props: seq<Property>): Option<seq<U32>>
  {
    if props == [] || props[0] == Empty then None
    else if props[0].U32ArrayProp? && props[0].name == "data-lanes" then Some(props[0].values)
    else LanesIn(props[1..])
  }

  /**
   * Slot `n` holds a wired connection: the two endpoints reference each
   * other, the parents form the chains sensor HID <- port0 <- endpoint0 and
   * CIO2 HID <- port <- endpoint0, the CIO2 port is the one named by `link`,
   * both endpoints carry the same lanes, and the node array ends in a zeroed
   * terminator.
   */
  predicate Wired(sensors: seq<Sensor>, n: nat, link: nat)
  {
    && RemoteOf(sensors, SlotNode(n, SwnodeSensorEndpoint)) == Some(SlotNode(n, SwnodeCio2Endpoint))
    && RemoteOf(sensors, SlotNode(n, SwnodeCio2Endpoint)) == Some(SlotNode(n, SwnodeSensorEndpoint))
    && ParentOf(sensors, SlotNode(n, SwnodeCio2Endpoint)) == Some(SlotNode(n, SwnodeCio2Port))
    && ParentOf(sensors, SlotNode(n, SwnodeCio2Port)) == Some(Cio2HidNode)
    && ParentOf(sensors, SlotNode(n, SwnodeSensorEndpoint)) == Some(SlotNode(n, SwnodeSensorPort))
    && ParentOf(sensors, SlotNode(n, SwnodeSensorPort)) == Some(SlotNode(n, SwnodeSensorHid))
    && ParentOf(sensors, SlotNode(n, SwnodeSensorHid)) == None
    && link < |PortNames|
    && NodeAt(sensors, SlotNode(n, SwnodeCio2Port)).Some?
    && NodeAt(sensors, SlotNode(n, SwnodeCio2Port)).value.SwNode?
    && NodeAt(sensors, SlotNode(n, SwnodeCio2Port)).value.name == PortNames[link]
    && n < |sensors| && |sensors[n].swnodes| == SwnodeCount
    && sensors[n].swnodes[SwnodeNullTerminator] == NullNode
    && LanesIn(PropsOf(sensors, EpProps(n))) == LanesIn(PropsOf(sensors, Cio2Props(n)))
  }

  /** Every property buffer of the slot is of its declared size and ends in a zeroed terminator. */
  predicate Terminated(s: Sensor)
  {
    && |s.devProperties| == DevPropertiesLen && s.devProperties[DevPropertiesLen - 1] == Empty
    && |s.epProperties| == EpPropertiesLen && s.epProperties[EpPropertiesLen - 1] == Empty
    && |s.cio2Properties| == Cio2PropertiesLen && s.cio2Properties[Cio2PropertiesLen - 1] == Empty
  }

  // ---------------------------------------------------------------------------
  // One candidate
  // ---------------------------------------------------------------------------

  /** Every check of one iteration passes: the candidate is connected. */
  predicate Commits(c: Candidate)
  {
    c.acpiMatch && c.busDevice && BlockFits(c.ssdb, SsdbSize) && c.lanesAlloc
    && c.registerResult == 0 && c.sensorFwnode
  }

  /** The loop goes on to the next candidate: this one is absent or connected. */
  predicate Continues(c: Candidate)
  {
    !c.acpiMatch || Commits(c)
  }

  /** The code the loop returns when candidate `c` stops it: that of the first check to fail. */
  function FailureCode(c: Candidate): (code: int)
    requires !Continues(c)
    ensures code != 0
  {
    if !c.busDevice then -EPROBE_DEFER
    else if !BlockFits(c.ssdb, SsdbSize) then -ENODEV
    else if !c.lanesAlloc then -ENOMEM
    else if c.registerResult != 0 then c.registerResult
    else -ENODEV
  }

  /** `a` is `b` with more calls appended. */
  predicate Extends(a: seq<Call>, b: seq<Call>)
  {
    |a| <= |b| && b[..|a|] == a
  }

  /**
   * One iteration: a candidate without an ACPI match changes nothing; the
   * counter grows, by exactly one, iff every check passes; otherwise the
   * loop stops with the code of the first failing check. Slots other than
   * `n_sensors` are never touched, and the call log only grows.
   */
  lemma CandidateOutcome(c: Candidate, i: nat, st: PassState)
    requires StepPre(c, i, st)
    ensures var r := ConnectCandidate(c, i, st);
      && (!c.acpiMatch ==> r == (Next, st))
      && (r.1.n == st.n + 1 <==> Commits(c))
      && (r.1.n == st.n || r.1.n == st.n + 1)
      && (r.0 == Next <==> Continues(c))
      && (!Continues(c) ==> r.0 == Return(FailureCode(c)))
      && (forall k :: 0 <= k < |st.sensors| && k != st.n ==> r.1.sensors[k] == st.sensors[k])
      && Extends(st.log, r.1.log)
  {
  }

  /**
   * A connected candidate's slot: it names the candidate's devices, its lane
   * buffer holds 1..lanes, its properties carry the clock frequency, the
   * rotation, bus type 5 and the lanes, every property buffer is
   * terminated, and its graph is wired to the CIO2 port the SSDB names.
   */
  lemma ConnectedSlot(c: Candidate, i: nat, st: PassState)
    requires StepPre(c, i, st) && Commits(c)
    ensures var r := ConnectCandidate(c, i, st);
      var s := r.1.sensors[st.n];
      var raw := SsdbRaw(c.ssdb, c.stack).value;
      && s.name == SupportedDevices[i] && s.dev == Some(i) && s.adev == Some(i)
      && s.dataLanes == Some(LaneSeq(raw[LanesOffset]))
      && s.devProperties[0] == U32Prop("clock-frequency", LeU32(raw, MclkspeedOffset))
      && s.devProperties[1] == U8Prop("rotation", raw[DegreeOffset])
      && s.epProperties[0] == U32Prop("bus-type", 5)
      && LanesIn(PropsOf(r.1.sensors, EpProps(st.n))) == Some(LaneSeq(raw[LanesOffset]))
      && Terminated(s)
      && Wired(r.1.sensors, st.n, raw[LinkOffset])
  {
    var r := ConnectCandidate(c, i, st);
    var n := st.n;
    var raw := SsdbRaw(c.ssdb, c.stack).value;
    var lanes := LaneSeq(raw[LanesOffset]);
    var s := r.1.sensors[n];
    assert s.swnodes == ConnectionNodes(SupportedDevices[i], raw[LinkOffset], n);
    assert s.epProperties == EpProperties(lanes, n) && s.cio2Properties == Cio2Properties(lanes, n);
    GraphOfSlot(r.1.sensors, n, SupportedDevices[i], raw[LinkOffset], lanes);
  }

  /** The nodes and endpoint properties the bridge writes into slot `n` wire that slot. */
  lemma GraphOfSlot(sensors: seq<Sensor>, n: nat, name: string, link: nat, lanes: seq<U32>)
    requires n < |sensors| && n < MaxConnectedDevices && link < |PortNames|
    requires sensors[n].swnodes == ConnectionNodes(name, link, n)
    requires sensors[n].epProperties == EpProperties(lanes, n)
    requires sensors[n].cio2Properties == Cio2Properties(lanes, n)
    ensures Wired(sensors, n, link)
    ensures LanesIn(PropsOf(sensors, EpProps(n))) == Some(lanes)
  {
    EndpointsOfSlot(sensors, n, name, link, lanes);
  }

  /** The two endpoint property buffers of slot `n` reference each other's node and carry the same lanes. */
  lemma EndpointsOfSlot(sensors: seq<Sensor>, n: nat, name: string, link: nat, lanes: seq<U32>)
    requires n < |sensors| && n < MaxConnectedDevices && link < |PortNames|
    requires sensors[n].swnodes == ConnectionNodes(name, link, n)
    requires sensors[n].epProperties == EpProperties(lanes, n)
    requires sensors[n].cio2Properties == Cio2Properties(lanes, n)
    ensures RemoteOf(sensors, SlotNode(n, SwnodeSensorEndpoint)) == Some(SlotNode(n, SwnodeCio2Endpoint))
    ensures RemoteOf(sensors, SlotNode(n, SwnodeCio2Endpoint)) == Some(SlotNode(n, SwnodeSensorEndpoint))
    ensures LanesIn(PropsOf(sensors, EpProps(n))) == Some(lanes)
    ensures LanesIn(PropsOf(sensors, Cio2Props(n))) == Some(lanes)
  {
    var ep := sensors[n].epProperties;
    var cio2 := sensors[n].cio2Properties;
    assert ep[1..][1..] == ep[2..];
    assert RemoteIn(ep[2..]) == Some(SlotNode(n, SwnodeCio2Endpoint));
    assert RemoteIn(ep[1..]) == Some(SlotNode(n, SwnodeCio2Endpoint));
    assert RemoteIn(cio2[1..]) == Some(SlotNode(n, SwnodeSensorEndpoint));
    assert LanesIn(ep[1..]) == Some(lanes);
  }

  // ---------------------------------------------------------------------------
  // A whole pass
  // ---------------------------------------------------------------------------

  /** The first candidate from `i` on that stops the loop, if any. */
  function FirstStop(w: seq<Candidate>, i: nat): (r: Option<nat>)
    requires i <= |w|
    ensures r.Some? ==> i <= r.value < |w| && !Continues(w[r.value])
    ensures r.Some? ==> forall k :: i <= k < r.value ==> Continues(w[k])
    ensures r.None? ==> forall k :: i <= k < |w| ==> Continues(w[k])
    decreases |w| - i
  {
    if i == |w| then None else if !Continues(w[i]) then Some(i) else FirstStop(w, i + 1)
  }

  /** How many of the candidates `i` to `j - 1` pass every check. */
  function CommitsIn(w: seq<Candidate>, i: nat, j: nat): (r: nat)
    requires i <= j <= |w|
    ensures r <= j - i
    decreases j - i
  {
    if i == j then 0 else (if Commits(w[i]) then 1 else 0) + CommitsIn(w, i + 1, j)
  }

  /**
   * A pass returns 0 iff no candidate stops it, and then it has connected
   * every candidate that passes every check; otherwise it returns the code
   * of the first candidate that stops it, having connected those before it.
   * Slots that were already connected are left alone.
   */
  lemma {:induction false} PassOutcome(w: seq<Candidate>, i: nat, st: PassState)
    requires PassWorld(w) && i <= |w| && Slots(st) && st.n + (|w| - i) <= MaxConnectedDevices
    ensures var r := PassFrom(w, i, st);
      && (r.0 == 0 <==> FirstStop(w, i).None?)
      && (FirstStop(w, i).None? ==> r.1.n == st.n + CommitsIn(w, i, |w|))
      && (FirstStop(w, i).Some? ==>
            var j := FirstStop(w, i).value;
            r.0 == FailureCode(w[j]) && r.1.n == st.n + CommitsIn(w, i, j))
      && (forall k :: 0 <= k < st.n ==> r.1.sensors[k] == st.sensors[k])
      && Extends(st.log, r.1.log)
    decreases |w| - i
  {
    if i < |w| {
      CandidateOutcome(w[i], i, st);
      var step := ConnectCandidate(w[i], i, st);
      if step.0.Next? {
        PassOutcome(w, i + 1, step.1);
      }
    }
  }

  /** A pass over a fresh bridge connects at most one sensor per supported ID, which fits the slot array. */
  lemma PassFitsSlots(w: seq<Candidate>, st: PassState)
    requires PassWorld(w) && Slots(st) && st.n == 0
    ensures PassFrom(w, 0, st).1.n <= |SupportedDevices| < MaxConnectedDevices
  {
  }

  /**
   * The candidates after the one that stops the loop are never consulted:
   * two worlds that agree up to and including it give the same pass.
   */
  lemma {:induction false} LaterCandidatesIgnored(w: seq<Candidate>, w': seq<Candidate>, i: nat, st: PassState)
    requires PassWorld(w) && PassWorld(w') && i <= |w| && Slots(st) && st.n + (|w| - i) <= MaxConnectedDevices
    requires FirstStop(w, i).Some?
    requires forall k :: i <= k <= FirstStop(w, i).value ==> w[k] == w'[k]
    ensures PassFrom(w, i, st) == PassFrom(w', i, st)
    decreases |w| - i
  {
    var step := ConnectCandidate(w[i], i, st);
    CandidateOutcome(w[i], i, st);
    if step.0.Next? {
      LaterCandidatesIgnored(w, w', i + 1, step.1);
    }
  }

  // ---------------------------------------------------------------------------
  // Reference accounting
  // ---------------------------------------------------------------------------

  /** Something the bridge can hold: a reference, a registration or an allocation. */
  datatype Resource =
    | AcpiRef(candidate: nat) | DevRef(candidate: nat)
    | NodeGroup(slot: nat) | LaneBuffer(slot: nat)
    | PciRef | HidNode

  /** The resource a call takes, if any. */
  function Takes(y: Call): Option<Resource>
  {
    match y
    case AcpiGet(c) => Some(AcpiRef(c))
    case DevGet(c) => Some(DevRef(c))
    case LanesAlloc(k) => Some(LaneBuffer(k))
    case NodesRegister(k) => Some(NodeGroup(k))
    case HidRegister => Some(HidNode)
    case PciGet => Some(PciRef)
    case _ => None
  }

  /** The resource a call gives back, if any. */
  function Gives(y: Call): Option<Resource>
  {
    match y
    case AcpiPut(c) => Some(AcpiRef(c))
    case DevPut(c) => Some(DevRef(c))
    case LanesFree(k) => Some(LaneBuffer(k))
    case NodesUnregister(k) => Some(NodeGroup(k))
    case HidUnregister => Some(HidNode)
    case PciPut => Some(PciRef)
    case _ => None
  }

  /** +1 if the call takes `res`, -1 if it gives it back, 0 otherwise. */
  function Weight(y: Call, res: Resource): int
  {
    (if Takes(y) == Some(res) then 1 else 0) - (if Gives(y) == Some(res) then 1 else 0)
  }

  /** Takes minus gives-back of `res` over the log: what the log leaves held. */
  function Held(log: seq<Call>, res: Resource): int
  {
    if log == [] then 0 else Weight(log[0], res) + Held(log[1..], res)
  }

  lemma {:induction false} HeldAppend(a: seq<Call>, b: seq<Call>, res: Resource)
    ensures Held(a + b, res) == Held(a, res) + Held(b, res)
  {
    if a != [] {
      assert (a + b)[1..] == a[1..] + b;
      HeldAppend(a[1..], b, res);
    } else {
      assert a + b == b;
    }
  }

  lemma HeldSingle(y: Call, res: Resource)
    ensures Held([y], res) == Weight(y, res)
  {
    assert [y][1..] == [];
  }

  /** Appending one call adds its weight. */
  lemma HeldPush(log: seq<Call>, y: Call, res: Resource)
    ensures Held(log + [y], res) == Held(log, res) + Weight(y, res)
  {
    HeldAppend(log, [y], res);
    HeldSingle(y, res);
  }

  /** How many of slots 0..n-1 hold an ACPI reference on candidate `c`. */
  function AdevHolders(sensors: seq<Sensor>, n: nat, c: nat): nat
    requires n <= |sensors|
  {
    if n == 0 then 0 else AdevHolders(sensors, n - 1, c) + (if sensors[n - 1].adev == Some(c) then 1 else 0)
  }

  /** How many of slots 0..n-1 hold a device reference on candidate `c`. */
  function DevHolders(sensors: seq<Sensor>, n: nat, c: nat): nat
    requires n <= |sensors|
  {
    if n == 0 then 0 else DevHolders(sensors, n - 1, c) + (if sensors[n - 1].dev == Some(c) then 1 else 0)
  }

  /**
   * What connected slots 0..n-1 hold of `res`: a reference per device
   * handle they name, and one node group and one lane buffer each.
   */
  function Holding(sensors: seq<Sensor>, n: nat, res: Resource): nat
    requires n <= |sensors|
  {
    match res
    case AcpiRef(c) => AdevHolders(sensors, n, c)
    case DevRef(c) => DevHolders(sensors, n, c)
    case NodeGroup(k) => if k < n then 1 else 0
    case LaneBuffer(k) => if k < n then 1 else 0
    case _ => 0
  }

  /** What slots below `n` hold depends only on those slots. */
  lemma {:induction false} HoldingFrame(a: seq<Sensor>, b: seq<Sensor>, n: nat, res: Resource)
    requires n <= |a| && n <= |b| && forall k :: 0 <= k < n ==> a[k] == b[k]
    ensures Holding(a, n, res) == Holding(b, n, res)
  {
    if n > 0 {
      assert forall k :: 0 <= k < n - 1 ==> a[k] == b[k];
      HoldingFrame(a, b, n - 1, res);
    }
  }

  /** Every connected slot owns its lane buffer. */
  predicate LanesOwned(sensors: seq<Sensor>, n: nat)
    requires n <= |sensors|
  {
    forall k :: 0 <= k < n ==> sensors[k].dataLanes.Some?
  }

  /** The two device reference releases at the end of a slot's release. */
  lemma DevicePutsHeld(sn: Sensor, res: Resource)
    ensures Held((if sn.dev.Some? then [DevPut(sn.dev.value)] else [])
                 + (if sn.adev.Some? then [AcpiPut(sn.adev.value)] else []), res) ==
      -((if sn.dev.Some? && res == DevRef(sn.dev.value) then 1 else 0)
        + (if sn.adev.Some? && res == AcpiRef(sn.adev.value) then 1 else 0))
  {
    if sn.dev.Some? && sn.adev.Some? {
      assert [DevPut(sn.dev.value)] + [AcpiPut(sn.adev.value)] == [DevPut(sn.dev.value), AcpiPut(sn.adev.value)];
      assert [DevPut(sn.dev.value), AcpiPut(sn.adev.value)][1..] == [AcpiPut(sn.adev.value)];
      HeldSingle(AcpiPut(sn.adev.value), res);
    } else if sn.dev.Some? {
      assert [DevPut(sn.dev.value)] + [] == [DevPut(sn.dev.value)];
      HeldSingle(DevPut(sn.dev.value), res);
    } else if sn.adev.Some? {
      assert [] + [AcpiPut(sn.adev.value)] == [AcpiPut(sn.adev.value)];
      HeldSingle(AcpiPut(sn.adev.value), res);
    } else {
      var none: seq<Call> := [];
      assert none + none == none;
    }
  }

  /** The release of slot `k` gives back what that slot holds. */
  lemma SlotReleaseHeld(sn: Sensor, k: nat, res: Resource)
    requires sn.dataLanes.Some?
    ensures Held(SlotRelease(sn, k), res) ==
      -((if res == NodeGroup(k) || res == LaneBuffer(k) then 1 else 0)
        + (if sn.dev.Some? && res == DevRef(sn.dev.value) then 1 else 0)
        + (if sn.adev.Some? && res == AcpiRef(sn.adev.value) then 1 else 0))
  {
    var puts := (if sn.dev.Some? then [DevPut(sn.dev.value)] else [])
                + (if sn.adev.Some? then [AcpiPut(sn.adev.value)] else []);
    assert SlotRelease(sn, k) == [NodesUnregister(k), LanesFree(k)] + puts;
    HeldAppend([NodesUnregister(k), LanesFree(k)], puts, res);
    SlotFreesHeld(k, res);
    DevicePutsHeld(sn, res);
  }

  /** The node group and the lane buffer of slot `k` are given back first. */
  lemma SlotFreesHeld(k: nat, res: Resource)
    ensures Held([NodesUnregister(k), LanesFree(k)], res) == -(if res == NodeGroup(k) || res == LaneBuffer(k) then 1 else 0)
  {
    assert [NodesUnregister(k), LanesFree(k)][1..] == [LanesFree(k)];
    HeldSingle(LanesFree(k), res);
  }

  /** `cio2_bridge_unregister_sensors` gives back exactly what connected slots 0..n-1 hold. */
  lemma {:induction false} UnregisterReleasesHolding(s: seq<Sensor>, n: nat, res: Resource)
    requires n <= |s| && LanesOwned(s, n)
    ensures Held(UnregisterLog(s, n), res) == -(Holding(s, n, res) as int)
  {
    if n > 0 {
      UnregisterReleasesHolding(s, n - 1, res);
      var u := UnregisterLog(s, n - 1);
      var rel := SlotRelease(s[n - 1], n - 1);
      assert UnregisterLog(s, n) == u + rel;
      HeldAppend(u, rel, res);
      SlotReleaseHeld(s[n - 1], n - 1, res);
    }
  }

  /** The two references `connect_supported_devices` takes for candidate `i` before anything can fail later. */
  function Got(i: nat, res: Resource): int
  {
    (if res == AcpiRef(i) then 1 else 0) + (if res == DevRef(i) then 1 else 0)
  }

  /** What the `-EPROBE_DEFER` rollback also gives back: everything slots 0..n-1 hold. */
  function Deferred(ret: int, sensors: seq<Sensor>, n: nat, res: Resource): int
    requires n <= |sensors|
  {
    if ret == -EPROBE_DEFER then Holding(sensors, n, res) else 0
  }

  /** What a slot connected for candidate `i` into slot `n` holds. */
  function SlotHold(i: nat, n: nat, res: Resource): int
  {
    Got(i, res) + (if res == NodeGroup(n) then 1 else 0) + (if res == LaneBuffer(n) then 1 else 0)
  }

  /**
   * The candidate stops the loop after its lane buffer was allocated: then
   * that buffer is never freed, since no rollback label frees `data_lanes`
   * of the slot being connected.
   */
  predicate LeaksLanes(c: Candidate)
  {
    c.acpiMatch && c.busDevice && BlockFits(c.ssdb, SsdbSize) && c.lanesAlloc && !Commits(c)
  }

  /** The labelled releases of the rollback chain, before any `-EPROBE_DEFER` unregistering. */
  lemma UnwindPutsHeld(entry: Label, i: nat, n: nat, res: Resource)
    ensures Held(UnwindPuts(entry, i, n), res) ==
      - (if entry == FreeSwnodes && res == NodeGroup(n) then 1 else 0)
      - (if entry != Rollback && res == DevRef(i) then 1 else 0)
      - (if res == AcpiRef(i) then 1 else 0)
  {
    match entry
    case FreeSwnodes =>
      assert [NodesUnregister(n), DevPut(i), AcpiPut(i)][1..] == [DevPut(i), AcpiPut(i)];
      assert [DevPut(i), AcpiPut(i)][1..] == [AcpiPut(i)];
      HeldSingle(AcpiPut(i), res);
    case FreeDev =>
      assert [DevPut(i), AcpiPut(i)][1..] == [AcpiPut(i)];
      HeldSingle(AcpiPut(i), res);
    case Rollback =>
      HeldSingle(AcpiPut(i), res);
  }

  /** The rollback chain entered at `entry` gives back what was taken before the jump. */
  lemma UnwindHeld(entry: Label, i: nat, ret: int, st: PassState, res: Resource)
    requires Slots(st) && LanesOwned(st.sensors, st.n)
    ensures Held(UnwindLog(entry, i, ret, st), res) ==
      - (if entry == FreeSwnodes && res == NodeGroup(st.n) then 1 else 0)
      - (if entry != Rollback && res == DevRef(i) then 1 else 0)
      - (if res == AcpiRef(i) then 1 else 0)
      - Deferred(ret, st.sensors, st.n, res)
  {
    var puts := UnwindPuts(entry, i, st.n);
    var d: seq<Call> := if ret == -EPROBE_DEFER then UnregisterLog(st.sensors, st.n) else [];
    assert UnwindLog(entry, i, ret, st) == puts + d;
    HeldAppend(puts, d, res);
    UnwindPutsHeld(entry, i, st.n, res);
    if ret == -EPROBE_DEFER { UnregisterReleasesHolding(st.sensors, st.n, res); }
  }

  /** Slot `n`, once counted, adds its own holdings. */
  lemma HoldingGrows(sensors: seq<Sensor>, n: nat, i: nat, res: Resource)
    requires n < |sensors| && sensors[n].dev == Some(i) && sensors[n].adev == Some(i)
    ensures Holding(sensors, n + 1, res) == Holding(sensors, n, res) + SlotHold(i, n, res)
  {
  }

  /** Registration and the commit, relative to the state they start from. */
  lemma CommitHeld(c: Candidate, i: nat, st: PassState, res: Resource)
    requires StepPre(c, i, st) && LanesOwned(st.sensors, st.n)
    requires st.sensors[st.n].dev == Some(i) && st.sensors[st.n].adev == Some(i)
    requires st.sensors[st.n].dataLanes.Some?
    ensures var r := RegisterAndCommit(c, i, st);
      && LanesOwned(r.1.sensors, r.1.n)
      && (r.0 == Next ==>
            && Held(r.1.log, res) == Held(st.log, res) + (if res == NodeGroup(st.n) then 1 else 0)
            && Holding(r.1.sensors, r.1.n, res) == Holding(st.sensors, st.n, res) + SlotHold(i, st.n, res))
      && (r.0.Return? ==>
            Held(r.1.log, res) == Held(st.log, res) - Got(i, res) - Deferred(r.0.ret, st.sensors, st.n, res))
  {
    if c.registerResult == 0 && c.sensorFwnode {
      CommitDoneHeld(c, i, st, res);
    } else {
      CommitFailedHeld(c, i, st, res);
    }
  }

  /** `CommitHeld` when registration and the fwnode lookup succeed: the slot is counted. */
  lemma CommitDoneHeld(c: Candidate, i: nat, st: PassState, res: Resource)
    requires StepPre(c, i, st) && LanesOwned(st.sensors, st.n)
    requires st.sensors[st.n].dev == Some(i) && st.sensors[st.n].adev == Some(i)
    requires st.sensors[st.n].dataLanes.Some?
    requires c.registerResult == 0 && c.sensorFwnode
    ensures var r := RegisterAndCommit(c, i, st);
      && r.0 == Next
      && LanesOwned(r.1.sensors, r.1.n)
      && Held(r.1.log, res) == Held(st.log, res) + (if res == NodeGroup(st.n) then 1 else 0)
      && Holding(r.1.sensors, r.1.n, res) == Holding(st.sensors, st.n, res) + SlotHold(i, st.n, res)
  {
    var n := st.n;
    HeldPush(st.log + [NodesRegister(n)], SensorSetSecondary(i, n), res);
    HeldPush(st.log, NodesRegister(n), res);
    HoldingGrows(st.sensors, n, i, res);
  }

  /** `CommitHeld` when registration or the fwnode lookup fails: the unwinding gives everything back. */
  lemma CommitFailedHeld(c: Candidate, i: nat, st: PassState, res: Resource)
    requires StepPre(c, i, st) && LanesOwned(st.sensors, st.n)
    requires st.sensors[st.n].dev == Some(i) && st.sensors[st.n].adev == Some(i)
    requires !(c.registerResult == 0 && c.sensorFwnode)
    ensures var r := RegisterAndCommit(c, i, st);
      && r.0.Return? && r.1.n == st.n && r.1.sensors == st.sensors
      && Held(r.1.log, res) == Held(st.log, res) - Got(i, res) - Deferred(r.0.ret, st.sensors, st.n, res)
  {
    var n := st.n;
    if c.registerResult != 0 {
      HeldAppend(st.log, UnwindLog(FreeDev, i, c.registerResult, st), res);
      UnwindHeld(FreeDev, i, c.registerResult, st, res);
    } else {
      var st5 := st.(log := st.log + [NodesRegister(n)]);
      HeldAppend(st5.log, UnwindLog(FreeSwnodes, i, -ENODEV, st5), res);
      HeldPush(st.log, NodesRegister(n), res);
      UnwindHeld(FreeSwnodes, i, -ENODEV, st5, res);
    }
  }

  /** The properties, the nodes and what follows, relative to the state after the SSDB read. */
  lemma WithSsdbHeld(c: Candidate, i: nat, ssdb: SensorBiosData, st: PassState, res: Resource)
    requires StepPre(c, i, st) && ssdb.link < |PortNames| && LanesOwned(st.sensors, st.n)
    requires st.sensors[st.n].dev == Some(i) && st.sensors[st.n].adev == Some(i)
    ensures var r := ConnectWithSsdb(c, i, ssdb, st);
      && LanesOwned(r.1.sensors, r.1.n)
      && (r.0 == Next ==>
            && Held(r.1.log, res) == Held(st.log, res) + (if res == NodeGroup(st.n) || res == LaneBuffer(st.n) then 1 else 0)
            && Holding(r.1.sensors, r.1.n, res) == Holding(st.sensors, st.n, res) + SlotHold(i, st.n, res))
      && (r.0.Return? ==>
            Held(r.1.log, res) == Held(st.log, res) - Got(i, res) - Deferred(r.0.ret, st.sensors, st.n, res)
              + (if res == LaneBuffer(st.n) && c.lanesAlloc && !(c.registerResult == 0 && c.sensorFwnode) then 1 else 0))
  {
    if FwnodeProperties(st.sensors[st.n], ssdb, st.n, c.lanesAlloc).0 != 0 {
      PropertiesFailedHeld(c, i, ssdb, st, res);
    } else {
      PropertiesDoneHeld(c, i, ssdb, st, res);
    }
  }

  /** `WithSsdbHeld` when the lane buffer cannot be allocated: the unwinding gives everything back. */
  lemma PropertiesFailedHeld(c: Candidate, i: nat, ssdb: SensorBiosData, st: PassState, res: Resource)
    requires StepPre(c, i, st) && ssdb.link < |PortNames| && LanesOwned(st.sensors, st.n)
    requires st.sensors[st.n].dev == Some(i) && st.sensors[st.n].adev == Some(i)
    requires FwnodeProperties(st.sensors[st.n], ssdb, st.n, c.lanesAlloc).0 != 0
    ensures var r := ConnectWithSsdb(c, i, ssdb, st);
      && r.0.Return? && r.1.n == st.n
      && LanesOwned(r.1.sensors, r.1.n)
      && Held(r.1.log, res) == Held(st.log, res) - Got(i, res) - Deferred(r.0.ret, st.sensors, st.n, res)
  {
    var n := st.n;
    var props := FwnodeProperties(st.sensors[n], ssdb, n, c.lanesAlloc);
    var st3 := st.(sensors := st.sensors[n := props.1]);
    HoldingFrame(st3.sensors, st.sensors, n, res);
    HeldAppend(st3.log, UnwindLog(FreeDev, i, props.0, st3), res);
    UnwindHeld(FreeDev, i, props.0, st3, res);
  }

  /** `WithSsdbHeld` once the lane buffer is allocated and the nodes are built. */
  lemma PropertiesDoneHeld(c: Candidate, i: nat, ssdb: SensorBiosData, st: PassState, res: Resource)
    requires StepPre(c, i, st) && ssdb.link < |PortNames| && LanesOwned(st.sensors, st.n)
    requires st.sensors[st.n].dev == Some(i) && st.sensors[st.n].adev == Some(i)
    requires FwnodeProperties(st.sensors[st.n], ssdb, st.n, c.lanesAlloc).0 == 0
    ensures var r := ConnectWithSsdb(c, i, ssdb, st);
      && LanesOwned(r.1.sensors, r.1.n)
      && (r.0 == Next ==>
            && Held(r.1.log, res) == Held(st.log, res) + (if res == NodeGroup(st.n) || res == LaneBuffer(st.n) then 1 else 0)
            && Holding(r.1.sensors, r.1.n, res) == Holding(st.sensors, st.n, res) + SlotHold(i, st.n, res))
      && (r.0.Return? ==>
            Held(r.1.log, res) == Held(st.log, res) - Got(i, res) - Deferred(r.0.ret, st.sensors, st.n, res)
              + (if res == LaneBuffer(st.n) then 1 else 0))
  {
    var n := st.n;
    var props := FwnodeProperties(st.sensors[n], ssdb, n, c.lanesAlloc);
    var s3 := props.1.(swnodes := ConnectionNodes(props.1.name, ssdb.link, n));
    var st4 := PassState(n, st.sensors[n := s3], st.log + [LanesAlloc(n)]);
    assert ConnectWithSsdb(c, i, ssdb, st) == RegisterAndCommit(c, i, st4);
    assert st4.sensors[n].dataLanes.Some? && st4.sensors[n].dev == Some(i) && st4.sensors[n].adev == Some(i);
    assert LanesOwned(st4.sensors, n);
    HoldingFrame(st4.sensors, st.sensors, n, res);
    HeldPush(st.log, LanesAlloc(n), res);
    CommitHeld(c, i, st4, res);
  }

  /** The SSDB read and what follows, relative to the state after both device references are taken. */
  lemma FoundHeld(c: Candidate, i: nat, st: PassState, res: Resource)
    requires StepPre(c, i, st) && LanesOwned(st.sensors, st.n)
    requires st.sensors[st.n].dev == Some(i) && st.sensors[st.n].adev == Some(i)
    ensures var r := ConnectFound(c, i, st);
      && LanesOwned(r.1.sensors, r.1.n)
      && (r.0 == Next ==>
            && Held(r.1.log, res) == Held(st.log, res) + (if res == NodeGroup(st.n) || res == LaneBuffer(st.n) then 1 else 0)
            && Holding(r.1.sensors, r.1.n, res) == Holding(st.sensors, st.n, res) + SlotHold(i, st.n, res))
      && (r.0.Return? ==>
            Held(r.1.log, res) == Held(st.log, res) - Got(i, res) - Deferred(r.0.ret, st.sensors, st.n, res)
              + (if res == LaneBuffer(st.n) && BlockFits(c.ssdb, SsdbSize) && c.lanesAlloc
                    && !(c.registerResult == 0 && c.sensorFwnode) then 1 else 0))
  {
    var raw := SsdbRaw(c.ssdb, c.stack);
    if raw.None? {
      HeldAppend(st.log, UnwindLog(FreeDev, i, -ENODEV, st), res);
      UnwindHeld(FreeDev, i, -ENODEV, st, res);
    } else {
      WithSsdbHeld(c, i, FillFromRaw(UnsetBiosData, raw.value), st, res);
    }
  }

  /**
   * One iteration of the candidate loop keeps the books: when it goes on,
   * the calls it logged take exactly what the new slot holds; when it
   * returns, they give back everything they took (and, for `-EPROBE_DEFER`,
   * everything the earlier slots hold) except the lane buffer of a
   * candidate that fails after its allocation, which stays allocated.
   */
  lemma StepHeld(c: Candidate, i: nat, st: PassState, res: Resource)
    requires StepPre(c, i, st) && LanesOwned(st.sensors, st.n)
    ensures var r := ConnectCandidate(c, i, st);
      && LanesOwned(r.1.sensors, r.1.n)
      && (r.0 == Next ==>
            Held(r.1.log, res) - Held(st.log, res) == Holding(r.1.sensors, r.1.n, res) - Holding(st.sensors, st.n, res))
      && (r.0.Return? ==>
            Held(r.1.log, res) - Held(st.log, res) ==
              (if LeaksLanes(c) && res == LaneBuffer(st.n) then 1 else 0) - Deferred(r.0.ret, st.sensors, st.n, res))
  {
    if !c.acpiMatch {
    } else if !c.busDevice {
      HeldAppend(st.log + [AcpiGet(i)], UnwindLog(Rollback, i, -EPROBE_DEFER, st), res);
      HeldPush(st.log, AcpiGet(i), res);
      UnwindHeld(Rollback, i, -EPROBE_DEFER, st, res);
    } else {
      var s1 := st.sensors[st.n].(dev := Some(i), adev := Some(i), name := SupportedDevices[i]);
      var st1 := PassState(st.n, st.sensors[st.n := s1], st.log + [AcpiGet(i)] + [DevGet(i)]);
      HoldingFrame(st1.sensors, st.sensors, st.n, res);
      HeldPush(st.log + [AcpiGet(i)], DevGet(i), res);
      HeldPush(st.log, AcpiGet(i), res);
      FoundHeld(c, i, st1, res);
    }
  }

  /** An iteration goes on to the next candidate exactly when the candidate is absent or connected. */
  lemma StepContinues(c: Candidate, i: nat, st: PassState)
    requires StepPre(c, i, st)
    ensures ConnectCandidate(c, i, st).0 == Next <==> Continues(c)
  {
  }

  /** The pass from `i` on stops at a candidate whose lane buffer stays allocated. */
  predicate StopLeaks(w: seq<Candidate>, i: nat)
    requires i <= |w|
  {
    FirstStop(w, i).Some? && LeaksLanes(w[FirstStop(w, i).value])
  }

  /**
   * A pass keeps the books: what it takes is what its new slots hold, less
   * everything held before when it rolls back on `-EPROBE_DEFER`, plus the
   * lane buffer of the slot it stopped at if that one was allocated.
   */
  lemma {:induction false} PassHeld(w: seq<Candidate>, i: nat, st: PassState, res: Resource)
    requires PassWorld(w) && i <= |w| && Slots(st) && st.n + (|w| - i) <= MaxConnectedDevices
    requires LanesOwned(st.sensors, st.n)
    ensures var r := PassFrom(w, i, st);
      && LanesOwned(r.1.sensors, r.1.n)
      && Held(r.1.log, res) - Held(st.log, res) ==
           Holding(r.1.sensors, r.1.n, res) - Holding(st.sensors, st.n, res)
           + (if StopLeaks(w, i) && res == LaneBuffer(r.1.n) then 1 else 0)
           - Deferred(r.0, r.1.sensors, r.1.n, res)
    decreases |w| - i, 1
  {
    if i < |w| {
      if ConnectCandidate(w[i], i, st).0.Next? {
        PassNextHeld(w, i, st, res);
      } else {
        PassStopHeld(w, i, st, res);
      }
    }
  }

  /** `PassHeld` when candidate `i` lets the loop go on: its books and the rest of the pass add up. */
  lemma {:induction false} PassNextHeld(w: seq<Candidate>, i: nat, st: PassState, res: Resource)
    requires PassWorld(w) && i < |w| && Slots(st) && st.n + (|w| - i) <= MaxConnectedDevices
    requires LanesOwned(st.sensors, st.n)
    requires ConnectCandidate(w[i], i, st).0.Next?
    ensures var r := PassFrom(w, i, st);
      && LanesOwned(r.1.sensors, r.1.n)
      && Held(r.1.log, res) - Held(st.log, res) ==
           Holding(r.1.sensors, r.1.n, res) - Holding(st.sensors, st.n, res)
           + (if StopLeaks(w, i) && res == LaneBuffer(r.1.n) then 1 else 0)
           - Deferred(r.0, r.1.sensors, r.1.n, res)
    decreases |w| - i, 0
  {
    var step := ConnectCandidate(w[i], i, st);
    StepHeld(w[i], i, st, res);
    StepContinues(w[i], i, st);
    assert PassFrom(w, i, st) == PassFrom(w, i + 1, step.1);
    assert FirstStop(w, i) == FirstStop(w, i + 1);
    PassHeld(w, i + 1, step.1, res);
  }

  /** `PassHeld` when candidate `i` stops the loop: only its own step counts. */
  lemma PassStopHeld(w: seq<Candidate>, i: nat, st: PassState, res: Resource)
    requires PassWorld(w) && i < |w| && Slots(st) && st.n + (|w| - i) <= MaxConnectedDevices
    requires LanesOwned(st.sensors, st.n)
    requires ConnectCandidate(w[i], i, st).0.Return?
    ensures var r := PassFrom(w, i, st);
      && LanesOwned(r.1.sensors, r.1.n)
      && Held(r.1.log, res) - Held(st.log, res) ==
           Holding(r.1.sensors, r.1.n, res) - Holding(st.sensors, st.n, res)
           + (if StopLeaks(w, i) && res == LaneBuffer(r.1.n) then 1 else 0)
           - Deferred(r.0, r.1.sensors, r.1.n, res)
  {
    var step := ConnectCandidate(w[i], i, st);
    StepHeld(w[i], i, st, res);
    StepContinues(w[i], i, st);
    CandidateOutcome(w[i], i, st);
    assert PassFrom(w, i, st) == (step.0.ret, step.1);
    assert FirstStop(w, i) == Some(i);
    HoldingFrame(step.1.sensors, st.sensors, st.n, res);
  }

  /** The CIO2 device reference and the CIO2 HID node, which a successful build keeps until the burn. */
  function Own(res: Resource): int
  {
    if res == PciRef || res == HidNode then 1 else 0
  }

  /** The build runs a pass, and the pass stops at a candidate whose lane buffer stays allocated. */
  predicate BuildLeaks(w: BuildWorld)
    requires |w.pass| == |SupportedDevices|
  {
    w.hidRegister >= 0 && StopLeaks(w.pass, 0)
  }

  /**
   * `cio2_bridge_build` keeps the books: on success it holds its own two
   * references plus what its new slots hold; on failure it gives back
   * everything it took, and with it what earlier slots held if it got as
   * far as the pass. Either way a lane buffer can stay behind.
   */
  lemma BuildHeld(w: BuildWorld, st: PassState, res: Resource)
    requires PassWorld(w.pass) && Slots(st) && st.n + |SupportedDevices| <= MaxConnectedDevices
    requires LanesOwned(st.sensors, st.n)
    ensures var r := BuildSpec(w, st);
      var leak := if BuildLeaks(w) && res == LaneBuffer(r.1.n) then 1 else 0;
      && LanesOwned(r.1.sensors, r.1.n)
      && (r.0 == 0 ==>
            Held(r.1.log, res) - Held(st.log, res) ==
              Holding(r.1.sensors, r.1.n, res) - Holding(st.sensors, st.n, res) + Own(res) + leak)
      && (r.0 != 0 ==>
            Held(r.1.log, res) - Held(st.log, res) ==
              leak - (if w.hidRegister >= 0 then Holding(st.sensors, st.n, res) else 0))
  {
    if w.hidRegister < 0 {
      HeldPush(st.log, PciGet, res);
      HeldPush(st.log + [PciGet], PciPut, res);
    } else {
      var st1 := st.(log := st.log + [PciGet] + [HidRegister]);
      assert BuildSpec(w, st) == FinishBuild(w, PassFrom(w.pass, 0, st1));
      BuildAfterHidHeld(w, st, st1, res);
    }
  }

  /** The build once the CIO2 HID node is registered. */
  lemma BuildAfterHidHeld(w: BuildWorld, st: PassState, st1: PassState, res: Resource)
    requires PassWorld(w.pass) && Slots(st) && st.n + |SupportedDevices| <= MaxConnectedDevices
    requires LanesOwned(st.sensors, st.n)
    requires st1 == st.(log := st.log + [PciGet] + [HidRegister])
    ensures var r := FinishBuild(w, PassFrom(w.pass, 0, st1));
      var leak := if StopLeaks(w.pass, 0) && res == LaneBuffer(r.1.n) then 1 else 0;
      && LanesOwned(r.1.sensors, r.1.n)
      && (r.0 == 0 ==>
            Held(r.1.log, res) - Held(st.log, res) ==
              Holding(r.1.sensors, r.1.n, res) - Holding(st.sensors, st.n, res) + Own(res) + leak)
      && (r.0 != 0 ==>
            Held(r.1.log, res) - Held(st.log, res) == leak - Holding(st.sensors, st.n, res))
  {
    BridgeRefsHeld(st.log, res);
    var pass := PassFrom(w.pass, 0, st1);
    PassHeld(w.pass, 0, st1, res);
    FinishBuildHeld(w, pass, res);
    BuildFromPassHeld(w, st, st1, pass, res);
  }

  /** The PCI reference and the HID node the build takes before its pass. */
  lemma BridgeRefsHeld(log: seq<Call>, res: Resource)
    ensures Held(log + [PciGet] + [HidRegister], res) == Held(log, res) + Own(res)
  {
    HeldPush(log, PciGet, res);
    HeldPush(log + [PciGet], HidRegister, res);
  }

  /** The build's books in terms of those of its pass. */
  lemma BuildFromPassHeld(w: BuildWorld, st: PassState, st1: PassState, pass: (int, PassState), res: Resource)
    requires Slots(st) && Slots(pass.1) && st1.sensors == st.sensors && st1.n == st.n
    requires Held(st1.log, res) == Held(st.log, res) + Own(res)
    requires var leak := if StopLeaks(w.pass, 0) && res == LaneBuffer(pass.1.n) then 1 else 0;
      Held(pass.1.log, res) - Held(st1.log, res) ==
        Holding(pass.1.sensors, pass.1.n, res) - Holding(st.sensors, st.n, res) + leak
        - Deferred(pass.0, pass.1.sensors, pass.1.n, res)
    requires var r := FinishBuild(w, pass);
      && (r.0 == 0 ==> Held(r.1.log, res) == Held(pass.1.log, res))
      && (r.0 != 0 ==>
            Held(r.1.log, res) == Held(pass.1.log, res) - Own(res)
              - (if pass.0 == -EPROBE_DEFER then 0 else Holding(pass.1.sensors, pass.1.n, res)))
    ensures var r := FinishBuild(w, pass);
      var leak := if StopLeaks(w.pass, 0) && res == LaneBuffer(r.1.n) then 1 else 0;
      && (r.0 == 0 ==>
            Held(r.1.log, res) - Held(st.log, res) ==
              Holding(r.1.sensors, r.1.n, res) - Holding(st.sensors, st.n, res) + Own(res) + leak)
      && (r.0 != 0 ==>
            Held(r.1.log, res) - Held(st.log, res) == leak - Holding(st.sensors, st.n, res))
  {
  }

  /** The part of the build after the pass: what it keeps or gives back of what the pass left. */
  lemma FinishBuildHeld(w: BuildWorld, pass: (int, PassState), res: Resource)
    requires Slots(pass.1) && LanesOwned(pass.1.sensors, pass.1.n)
    ensures var r := FinishBuild(w, pass);
      && r.1.n == pass.1.n && r.1.sensors == pass.1.sensors
      && (r.0 == 0 ==> Held(r.1.log, res) == Held(pass.1.log, res))
      && (r.0 != 0 ==>
            Held(r.1.log, res) == Held(pass.1.log, res) - Own(res)
              - (if pass.0 == -EPROBE_DEFER then 0 else Holding(pass.1.sensors, pass.1.n, res)))
  {
    var st2 := pass.1;
    if pass.0 == -EPROBE_DEFER || st2.n == 0 {
      ReleaseBridgeHeld(st2.log, res);
    } else if !w.cio2Fwnode {
      ReleaseBridgeHeld(st2.log + UnregisterLog(st2.sensors, st2.n), res);
      HeldAppend(st2.log, UnregisterLog(st2.sensors, st2.n), res);
      UnregisterReleasesHolding(st2.sensors, st2.n, res);
    } else {
      HeldPush(st2.log, Cio2SetSecondary, res);
    }
  }

  /** The two releases at the end of a failed build. */
  lemma ReleaseBridgeHeld(log: seq<Call>, res: Resource)
    ensures Held(log + [HidUnregister, PciPut], res) == Held(log, res) - Own(res)
  {
    assert log + [HidUnregister, PciPut] == log + [HidUnregister] + [PciPut];
    HeldPush(log + [HidUnregister], PciPut, res);
    HeldPush(log, HidUnregister, res);
  }

  /** `cio2_bridge_burn` gives back what the bridge holds: its slots, the CIO2 reference and the HID node. */
  lemma BurnHeld(st: PassState, res: Resource)
    requires Slots(st) && LanesOwned(st.sensors, st.n)
    ensures Held(BurnSpec(st).log, res) - Held(st.log, res) == -(Holding(st.sensors, st.n, res) as int) - Own(res)
  {
    var u := UnregisterLog(st.sensors, st.n);
    HeldPush(st.log + [PciPut] + u, HidUnregister, res);
    HeldAppend(st.log + [PciPut], u, res);
    HeldPush(st.log, PciPut, res);
    UnregisterReleasesHolding(st.sensors, st.n, res);
  }

  /**
   * On a freshly loaded bridge, a failed build, and a successful build
   * followed by the burn, both leave every resource as it was, except the
   * lane buffer of a candidate that failed after its allocation.
   */
  lemma FreshBridgeBalanced(w: BuildWorld, st: PassState, res: Resource)
    requires PassWorld(w.pass) && Slots(st) && st.n == 0
    ensures var r := BuildSpec(w, st);
      var leak := if BuildLeaks(w) && res == LaneBuffer(r.1.n) then 1 else 0;
      && (r.0 != 0 ==> Held(r.1.log, res) == Held(st.log, res) + leak)
      && (r.0 == 0 ==> Held(BurnSpec(r.1).log, res) == Held(st.log, res) + leak)
  {
    BuildHeld(w, st, res);
    var r := BuildSpec(w, st);
    if r.0 == 0 {
      BurnHeld(r.1, res);
    }
  }

  /**
   * A candidate whose registration or fwnode lookup fails after its lane
   * buffer was allocated leaves that buffer allocated: the loop returns the
   * failure, and the call log holds one more allocation than frees of it.
   */
  lemma LanesLeakOnLateFailure(c: Candidate, i: nat, st: PassState)
    requires StepPre(c, i, st) && LanesOwned(st.sensors, st.n)
    requires c.acpiMatch && c.busDevice && BlockFits(c.ssdb, SsdbSize) && c.lanesAlloc
    requires c.registerResult != 0 || !c.sensorFwnode
    ensures var r := ConnectCandidate(c, i, st);
      && r.0 == Return(if c.registerResult != 0 then c.registerResult else -ENODEV)
      && Held(r.1.log, LaneBuffer(st.n)) == Held(st.log, LaneBuffer(st.n)) + 1
  {
    CandidateOutcome(c, i, st);
    StepHeld(c, i, st, LaneBuffer(st.n));
  }

  /**
   * What `cio2_bridge_build` returns: the HID registration's error; else
   * -EPROBE_DEFER when the pass deferred or connected no sensor; else -ENODEV
   * when the CIO2 fwnode is missing; else 0. A pass that stopped with another
   * error after connecting a sensor still lets the build succeed.
   */
  lemma BuildOutcome(w: BuildWorld, st: PassState)
    requires PassWorld(w.pass) && Slots(st) && st.n + |SupportedDevices| <= MaxConnectedDevices
    ensures var r := BuildSpec(w, st);
      && (w.hidRegister < 0 ==> r.0 == w.hidRegister && r.1.n == st.n && r.1.sensors == st.sensors)
      && (w.hidRegister >= 0 ==>
            var pass := PassFrom(w.pass, 0, st.(log := st.log + [PciGet] + [HidRegister]));
            && r.1.n == pass.1.n && r.1.sensors == pass.1.sensors
            && (r.0 == 0 <==> pass.0 != -EPROBE_DEFER && pass.1.n > 0 && w.cio2Fwnode)
            && (pass.0 == -EPROBE_DEFER || pass.1.n == 0 ==> r.0 == -EPROBE_DEFER)
            && (pass.0 != -EPROBE_DEFER && pass.1.n > 0 && !w.cio2Fwnode ==> r.0 == -ENODEV)
            && (r.0 != 0 ==> r.0 == -EPROBE_DEFER || r.0 == -ENODEV))
      && (r.0 == 0 ==> r.1.n > 0)
  {
    if w.hidRegister >= 0 {
      var st1 := st.(log := st.log + [PciGet] + [HidRegister]);
      assert BuildSpec(w, st) == FinishBuild(w, PassFrom(w.pass, 0, st1));
    }
  }

  // ---------------------------------------------------------------------------
  // A build retried after it failed
  // ---------------------------------------------------------------------------

  /**
   * `n_sensors` is never reset, so a build retried after a failed one
   * starts counting at the slots the failed build left behind, which that
   * build had already released. A successful retry followed by the burn
   * gives those slots' references back a second time.
   */
  lemma RetryAfterFailedBuild(w1: BuildWorld, w2: BuildWorld, st: PassState, res: Resource)
    requires PassWorld(w1.pass) && PassWorld(w2.pass) && Slots(st) && st.n == 0
    requires BuildSpec(w1, st).0 != 0
    requires BuildSpec(w1, st).1.n + |SupportedDevices| <= MaxConnectedDevices
    requires BuildSpec(w2, BuildSpec(w1, st).1).0 == 0
    ensures var r1 := BuildSpec(w1, st);
      var r2 := BuildSpec(w2, r1.1);
      var leak1 := if BuildLeaks(w1) && res == LaneBuffer(r1.1.n) then 1 else 0;
      var leak2 := if BuildLeaks(w2) && res == LaneBuffer(r2.1.n) then 1 else 0;
      Held(BurnSpec(r2.1).log, res) - Held(st.log, res) == leak1 + leak2 - Holding(r1.1.sensors, r1.1.n, res)
  {
    var r1 := BuildSpec(w1, st);
    BuildHeld(w1, st, res);
    BuildHeld(w2, r1.1, res);
    BurnHeld(BuildSpec(w2, r1.1).1, res);
  }

  /**
   * A concrete case: a first build connects a sensor into slot 0, then
   * defers because the second supported sensor has no I2C device yet, and
   * rolls slot 0 back; the retry, with only the first sensor present,
   * connects it again into slot 1 and succeeds; the burn then drops the
   * first sensor's ACPI reference twice, one more time than it was taken.
   */
  lemma RetryOverReleases(good: Candidate, missing: Candidate, absent: Candidate, st: PassState)
    requires CandidateOk(good) && Commits(good)
    requires CandidateOk(missing) && missing.acpiMatch && !missing.busDevice
    requires CandidateOk(absent) && !absent.acpiMatch
    requires Slots(st) && st.n == 0
    ensures var r1 := BuildSpec(BuildWorld(0, [good, missing], true), st);
      && r1.0 == -EPROBE_DEFER && r1.1.n == 1
      && var r2 := BuildSpec(BuildWorld(0, [good, absent], true), r1.1);
      && r2.0 == 0 && r2.1.n == 2
      && Held(BurnSpec(r2.1).log, AcpiRef(0)) == Held(st.log, AcpiRef(0)) - 1
  {
    var w1 := BuildWorld(0, [good, missing], true);
    var w2 := BuildWorld(0, [good, absent], true);
    FirstBuildDefers(good, missing, st);
    var r1 := BuildSpec(w1, st);
    RetrySucceeds(good, absent, r1.1);
    assert AdevHolders(r1.1.sensors, 0, 0) == 0;
    assert Holding(r1.1.sensors, r1.1.n, AcpiRef(0)) == 1;
    RetryAfterFailedBuild(w1, w2, st, AcpiRef(0));
  }

  /** The first build of the concrete case: slot 0 is connected for candidate 0, then candidate 1 defers. */
  lemma FirstBuildDefers(good: Candidate, missing: Candidate, st: PassState)
    requires CandidateOk(good) && Commits(good)
    requires CandidateOk(missing) && missing.acpiMatch && !missing.busDevice
    requires Slots(st) && st.n == 0
    ensures var r1 := BuildSpec(BuildWorld(0, [good, missing], true), st);
      r1.0 == -EPROBE_DEFER && r1.1.n == 1 && r1.1.sensors[0].adev == Some(0)
  {
    var w1 := BuildWorld(0, [good, missing], true);
    var st1 := st.(log := st.log + [PciGet] + [HidRegister]);
    CandidateOutcome(good, 0, st1);
    ConnectedSlot(good, 0, st1);
    var step := ConnectCandidate(good, 0, st1);
    assert PassFrom(w1.pass, 0, st1) == PassFrom(w1.pass, 1, step.1);
    PassOutcome(w1.pass, 1, step.1);
    assert FirstStop(w1.pass, 1) == Some(1);
    assert BuildSpec(w1, st) == FinishBuild(w1, PassFrom(w1.pass, 0, st1));
  }

  /** The retry of the concrete case: candidate 0 again, into the next slot; candidate 1 absent. */
  lemma RetrySucceeds(good: Candidate, absent: Candidate, st: PassState)
    requires CandidateOk(good) && Commits(good)
    requires CandidateOk(absent) && !absent.acpiMatch
    requires Slots(st) && st.n == 1
    ensures var r2 := BuildSpec(BuildWorld(0, [good, absent], true), st);
      r2.0 == 0 && r2.1.n == 2
  {
    var w2 := BuildWorld(0, [good, absent], true);
    var st2 := st.(log := st.log + [PciGet] + [HidRegister]);
    CandidateOutcome(good, 0, st2);
    var step := ConnectCandidate(good, 0, st2);
    assert PassFrom(w2.pass, 0, st2) == PassFrom(w2.pass, 1, step.1);
    PassOutcome(w2.pass, 1, step.1);
    assert FirstStop(w2.pass, 1) == None;
    assert BuildSpec(w2, st) == FinishBuild(w2, PassFrom(w2.pass, 0, st2));
  }
}
