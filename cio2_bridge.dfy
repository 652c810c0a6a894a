/**
 * The CIO2 camera-sensor bridge: it finds the camera sensors the firmware
 * describes, reads each sensor's SSDB record, builds the software-node graph
 * that connects the sensor to the CIO2 receiver and registers it.
 *
 * The bridge state is a class with the C module's global `bridge`: the
 * sensor counter and the fixed array of four sensor slots. Kernel services
 * are oracles: what each of them answers for a candidate comes in a
 * `Candidate` value, and every call that takes or drops a reference, or
 * registers or unregisters something, is appended to `log`. Reference
 * counts are counts of log entries.
 */
module Cio2Bridge {
  import opened Wrappers
  import opened Errno
  import opened Bytes
  import opened Cio2BridgeDefs

  /** ACPI hardware IDs of the sensors the bridge connects, in search order. */
  const SupportedDevices: seq<string> := ["INT33BE", "OVTI2680"]

  /** Names of the CIO2 receiver's four ports, indexed by the SSDB `link` field. */
  const PortNames: seq<string> := ["port0", "port1", "port2", "port3"]

  /**
   * The pool of remote-endpoint references: entry `2n + EndpointSensor`
   * points at slot `n`'s CIO2 endpoint, entry `2n + EndpointCio2` at its
   * sensor endpoint.
   */
  const RemoteEndpoints: seq<Property> := [
    RefProp("remote-endpoint", SlotNode(0, SwnodeCio2Endpoint)),
    RefProp("remote-endpoint", SlotNode(0, SwnodeSensorEndpoint)),
    RefProp("remote-endpoint", SlotNode(1, SwnodeCio2Endpoint)),
    RefProp("remote-endpoint", SlotNode(1, SwnodeSensorEndpoint)),
    RefProp("remote-endpoint", SlotNode(2, SwnodeCio2Endpoint)),
    RefProp("remote-endpoint", SlotNode(2, SwnodeSensorEndpoint)),
    RefProp("remote-endpoint", SlotNode(3, SwnodeCio2Endpoint)),
    RefProp("remote-endpoint", SlotNode(3, SwnodeSensorEndpoint))
  ]

  // ---------------------------------------------------------------------------
  // Reading the SSDB block
  // ---------------------------------------------------------------------------

  /** The object an ACPI method evaluation hands back. */
  datatype AcpiObject = BufferObject(bytes: seq<Byte>) | OtherObject(objectType: nat)

  /** What `acpi_evaluate_object` produced: a failed status, a NULL buffer, or an object. */
  datatype AcpiEval = EvalFailure | NullResult | Evaluated(obj: AcpiObject)

  /** The evaluation produced a buffer object of at most `size` bytes. */
  predicate BlockFits(e: AcpiEval, size: nat)
  {
    e.Evaluated? && e.obj.BufferObject? && |e.obj.bytes| <= size
  }

  /**
   * `read_acpi_block`: copy the evaluated buffer into `data`, all or nothing.
   */
  method ReadAcpiBlock(e: AcpiEval, data: array<Byte>, size: nat) returns (ret: int)
    requires size <= data.Length
    modifies data
    ensures ret >= 0 <==> BlockFits(e, size)
    ensures !BlockFits(e, size) ==> ret == -ENODEV && data[..] == old(data[..])
    ensures BlockFits(e, size) ==>
      ret == |e.obj.bytes| && data[..ret] == e.obj.bytes && data[ret..] == old(data[ret..])
  {
    if e.EvalFailure? {
      return -ENODEV;
    }
    if e.NullResult? {
      return -ENODEV;
    }
    var obj := e.obj;
    if !obj.BufferObject? {
      return -ENODEV;
    }
    if |obj.bytes| > size {
      return -ENODEV;
    }
    var j := 0;
    while j < |obj.bytes|
      invariant 0 <= j <= |obj.bytes|
      invariant data[..j] == obj.bytes[..j]
      invariant data[j..] == old(data[j..])
    {
      data[j] := obj.bytes[j];
      j := j + 1;
    }
    ret := |obj.bytes|;
  }

  /**
   * The raw SSDB record after a read into a stack buffer that held `stack`:
   * the block's bytes followed by whatever the buffer held beyond them.
   * `None` when the read fails.
   */
  function SsdbRaw(e: AcpiEval, stack: seq<Byte>): (r: Option<seq<Byte>>)
    requires |stack| == SsdbSize
    ensures r.Some? <==> BlockFits(e, SsdbSize)
    ensures r.Some? ==> |r.value| == SsdbSize
  {
    if BlockFits(e, SsdbSize) then Some(e.obj.bytes + stack[|e.obj.bytes|..]) else None
  }

  /**
   * `get_acpi_ssdb_sensor_data`: read the SSDB block into an uninitialised
   * stack record (its prior contents are `stack`) and project four fields
   * out of it; on failure the output record is left as it was.
   */
  method GetAcpiSsdbSensorData(e: AcpiEval, stack: seq<Byte>, sensor: SensorBiosData)
    returns (ret: int, sensor': SensorBiosData)
    requires |stack| == SsdbSize
    ensures ret == 0 <==> BlockFits(e, SsdbSize)
    ensures ret != 0 ==> ret == -ENODEV && sensor' == sensor
    ensures ret == 0 ==> sensor' == FillFromRaw(sensor, SsdbRaw(e, stack).value)
  {
    var data := new Byte[SsdbSize](k => if 0 <= k < |stack| then stack[k] else 0);
    assert data[..] == stack;
    ret := ReadAcpiBlock(e, data, SsdbSize);
    if ret < 0 {
      return ret, sensor;
    }
    assert data[..] == data[..ret] + data[ret..];
    sensor' := FillFromRaw(sensor, data[..]);
    ret := 0;
  }

  // ---------------------------------------------------------------------------
  // The per-sensor property sets and node graph
  // ---------------------------------------------------------------------------

  /** The lane numbers 1..n that `create_fwnode_properties` stores in `data_lanes`. */
  function LaneSeq(n: Byte): (r: seq<U32>)
    ensures |r| == n
    ensures forall k :: 0 <= k < n ==> r[k] == k + 1
  {
    if n == 0 then [] else LaneSeq(n - 1) + [n]
  }

  /** The sensor device's properties, terminator included. */
  function DevProperties(ssdb: SensorBiosData): seq<Property>
  {
    [U32Prop("clock-frequency", ssdb.mclkspeed), U8Prop("rotation", ssdb.degree), Empty]
  }

  /** A zeroed endpoint property buffer. */
  const ZeroedEpProperties: seq<Property> := [Empty, Empty, Empty, Empty]

  /** The sensor endpoint's properties for slot `n`, terminator included. */
  function EpProperties(lanes: seq<U32>, n: nat): seq<Property>
    requires n < MaxConnectedDevices
  {
    [U32Prop("bus-type", 5), U32ArrayProp("data-lanes", lanes),
     RemoteEndpoints[2 * n + EndpointSensor], Empty]
  }

  /** The CIO2 endpoint's properties for slot `n`, terminator included. */
  function Cio2Properties(lanes: seq<U32>, n: nat): seq<Property>
    requires n < MaxConnectedDevices
  {
    [U32ArrayProp("data-lanes", lanes), RemoteEndpoints[2 * n + EndpointCio2], Empty]
  }

  /**
   * `create_fwnode_properties` on the sensor in slot `n`: the return code and
   * the sensor afterwards. The device properties and the zeroed endpoint
   * buffer are written before the lane allocation can fail.
   */
  function FwnodeProperties(s: Sensor, ssdb: SensorBiosData, n: nat, allocOk: bool): (r: (int, Sensor))
    requires n < MaxConnectedDevices
  {
    var s1 := s.(devProperties := DevProperties(ssdb), epProperties := ZeroedEpProperties);
    if !allocOk then
      (-ENOMEM, s1.(dataLanes := None))
    else
      var lanes := LaneSeq(ssdb.lanes);
      (0, s1.(dataLanes := Some(lanes), epProperties := EpProperties(lanes, n),
              cio2Properties := Cio2Properties(lanes, n)))
  }

  /** The six software nodes of slot `n`, as `create_connection_swnodes` writes them. */
  function ConnectionNodes(name: string, link: nat, n: nat): seq<SoftwareNode>
    requires link < |PortNames|
  {
    [SwNode(name, None, DevProps(n)),
     SwNode("port0", Some(SlotNode(n, SwnodeSensorHid)), NoProps),
     SwNode("endpoint0", Some(SlotNode(n, SwnodeSensorPort)), EpProps(n)),
     SwNode(PortNames[link], Some(Cio2HidNode), NoProps),
     SwNode("endpoint0", Some(SlotNode(n, SwnodeCio2Port)), Cio2Props(n)),
     NullNode]
  }

  // ---------------------------------------------------------------------------
  // Kernel services and the bridge state
  // ---------------------------------------------------------------------------

  /**
   * A kernel call that takes or drops a reference or a registration.
   * Device handles are named by the index of the candidate they were found
   * for, lane buffers and node groups by their slot.
   */
  datatype Call =
    | AcpiGet(candidate: nat) | AcpiPut(candidate: nat)
    | DevGet(candidate: nat) | DevPut(candidate: nat)
    | LanesAlloc(slot: nat) | LanesFree(slot: nat)
    | NodesRegister(slot: nat) | NodesUnregister(slot: nat)
    | SensorSetSecondary(candidate: nat, slot: nat)
    | HidRegister | HidUnregister
    | PciGet | PciPut
    | Cio2SetSecondary

  /** What the kernel answers for one supported ID during one pass. */
  datatype Candidate = Candidate(
    acpiMatch: bool,     // acpi_dev_get_first_match_dev finds a device
    busDevice: bool,     // bus_find_device_by_acpi_dev finds its I2C device
    ssdb: AcpiEval,      // evaluating its SSDB method
    stack: seq<Byte>,    // what the uninitialised stack record holds
    lanesAlloc: bool,    // kmalloc_array of the lane buffer succeeds
    registerResult: int, // software_node_register_nodes
    sensorFwnode: bool)  // software_node_fwnode finds the sensor's HID node

  /**
   * The firmware describes a CIO2 port that exists: `port_names[link]` is
   * indexed without a bounds check, so a link of 4 or more is outside what
   * the driver can handle.
   */
  predicate CandidateOk(c: Candidate)
  {
    && |c.stack| == SsdbSize
    && (BlockFits(c.ssdb, SsdbSize) ==> SsdbRaw(c.ssdb, c.stack).value[LinkOffset] < |PortNames|)
  }

  /** One answer per supported ID, each within what the driver can handle. */
  predicate PassWorld(w: seq<Candidate>)
  {
    |w| == |SupportedDevices| && forall k {:trigger CandidateOk(w[k])} :: 0 <= k < |w| ==> CandidateOk(w[k])
  }

  /** The bridge's global state: `n_sensors`, the sensor slots, and the kernel call log. */
  datatype PassState = PassState(n: int, sensors: seq<Sensor>, log: seq<Call>)

  predicate Slots(st: PassState)
  {
    |st.sensors| == MaxConnectedDevices && 0 <= st.n <= MaxConnectedDevices
  }

  /** The fields of the local `ssdb` record before the first read; none of them is read before it is set. */
  const UnsetBiosData: SensorBiosData := SensorBiosData(None, 0, 0, 0, 0)

  /** `kfree`, `put_device` and `acpi_dev_put` do nothing on a NULL pointer. */
  function SlotRelease(s: Sensor, k: nat): seq<Call>
  {
    [NodesUnregister(k)]
    + (if s.dataLanes.Some? then [LanesFree(k)] else [])
    + (if s.dev.Some? then [DevPut(s.dev.value)] else [])
    + (if s.adev.Some? then [AcpiPut(s.adev.value)] else [])
  }

  /** `cio2_bridge_unregister_sensors`: the releases of slots 0..n-1, in slot order. */
  function UnregisterLog(sensors: seq<Sensor>, n: nat): seq<Call>
    requires n <= |sensors|
  {
    if n == 0 then [] else UnregisterLog(sensors, n - 1) + SlotRelease(sensors[n - 1], n - 1)
  }

  /** The three rollback labels of `connect_supported_devices`, entered from the top. */
  datatype Label = FreeSwnodes | FreeDev | Rollback

  /** The labelled releases of the chain entered at `entry`, for candidate `i` in slot `n`; each label falls through to the next. */
  function UnwindPuts(entry: Label, i: nat, n: nat): seq<Call>
  {
    match entry
    case FreeSwnodes => [NodesUnregister(n), DevPut(i), AcpiPut(i)]
    case FreeDev => [DevPut(i), AcpiPut(i)]
    case Rollback => [AcpiPut(i)]
  }

  /** The calls the rollback chain entered at `entry` makes for candidate `i` with code `ret`. */
  function UnwindLog(entry: Label, i: nat, ret: int, st: PassState): seq<Call>
    requires Slots(st)
  {
    UnwindPuts(entry, i, st.n)
    + (if ret == -EPROBE_DEFER then UnregisterLog(st.sensors, st.n) else [])
  }

  /** How one iteration of the candidate loop ends: on to the next candidate, or out of the function. */
  datatype StepOutcome = Next | Return(ret: int)

  /** The requirements every stage of one loop iteration shares. */
  predicate StepPre(c: Candidate, i: nat, st: PassState)
  {
    i < |SupportedDevices| && CandidateOk(c) && Slots(st) && st.n < MaxConnectedDevices
  }

  /**
   * One iteration of the loop of `connect_supported_devices`, for candidate
   * `i`, with the rollback chain its failures jump into.
   */
  function ConnectCandidate(c: Candidate, i: nat, st: PassState): (r: (StepOutcome, PassState))
    requires StepPre(c, i, st)
    ensures Slots(r.1)
    ensures r.1.n == st.n || (r.1.n == st.n + 1 && r.0 == Next)
  {
    if !c.acpiMatch then (Next, st)
    else if !c.busDevice then
      (Return(-EPROBE_DEFER), st.(log := st.log + [AcpiGet(i)] + UnwindLog(Rollback, i, -EPROBE_DEFER, st)))
    else
      var s1 := st.sensors[st.n].(dev := Some(i), adev := Some(i), name := SupportedDevices[i]);
      ConnectFound(c, i, PassState(st.n, st.sensors[st.n := s1], st.log + [AcpiGet(i)] + [DevGet(i)]))
  }

  /** The iteration after both device references are held and the slot names them: the SSDB read. */
  function ConnectFound(c: Candidate, i: nat, st: PassState): (r: (StepOutcome, PassState))
    requires StepPre(c, i, st)
    ensures Slots(r.1)
    ensures r.1.n == st.n || (r.1.n == st.n + 1 && r.0 == Next)
  {
    var raw := SsdbRaw(c.ssdb, c.stack);
    if raw.None? then
      (Return(-ENODEV), st.(log := st.log + UnwindLog(FreeDev, i, -ENODEV, st)))
    else
      ConnectWithSsdb(c, i, FillFromRaw(UnsetBiosData, raw.value), st)
  }

  /** The iteration after the SSDB read: properties and nodes. */
  function ConnectWithSsdb(c: Candidate, i: nat, ssdb: SensorBiosData, st: PassState): (r: (StepOutcome, PassState))
    requires StepPre(c, i, st) && ssdb.link < |PortNames|
    ensures Slots(r.1)
    ensures r.1.n == st.n || (r.1.n == st.n + 1 && r.0 == Next)
  {
    var n := st.n;
    var props := FwnodeProperties(st.sensors[n], ssdb, n, c.lanesAlloc);
    if props.0 != 0 then
      var st3 := st.(sensors := st.sensors[n := props.1]);
      (Return(props.0), st3.(log := st3.log + UnwindLog(FreeDev, i, props.0, st3)))
    else
      var s3 := props.1.(swnodes := ConnectionNodes(props.1.name, ssdb.link, n));
      RegisterAndCommit(c, i, PassState(n, st.sensors[n := s3], st.log + [LanesAlloc(n)]))
  }

  /** The iteration after the graph is built: registration, the fwnode lookup, and the commit. */
  function RegisterAndCommit(c: Candidate, i: nat, st: PassState): (r: (StepOutcome, PassState))
    requires StepPre(c, i, st)
    ensures Slots(r.1)
    ensures r.1.n == st.n || (r.1.n == st.n + 1 && r.0 == Next)
  {
    var n := st.n;
    if c.registerResult != 0 then
      (Return(c.registerResult), st.(log := st.log + UnwindLog(FreeDev, i, c.registerResult, st)))
    else if !c.sensorFwnode then
      var st5 := st.(log := st.log + [NodesRegister(n)]);
      (Return(-ENODEV), st5.(log := st5.log + UnwindLog(FreeSwnodes, i, -ENODEV, st5)))
    else
      (Next, PassState(n + 1, st.sensors, st.log + [NodesRegister(n)] + [SensorSetSecondary(i, n)]))
  }

  /** The loop of `connect_supported_devices` from candidate `i` on: its return code and final state. */
  function PassFrom(w: seq<Candidate>, i: nat, st: PassState): (r: (int, PassState))
    requires PassWorld(w) && i <= |w| && Slots(st) && st.n + (|w| - i) <= MaxConnectedDevices
    ensures Slots(r.1)
    ensures st.n <= r.1.n <= st.n + (|w| - i)
    decreases |w| - i, 1
  {
    if i == |w| then (0, st) else PassAt(w, i, st)
  }

  /** Iteration `i` of the loop, and what follows it. */
  function PassAt(w: seq<Candidate>, i: nat, st: PassState): (r: (int, PassState))
    requires PassWorld(w) && i < |w| && Slots(st) && st.n + (|w| - i) <= MaxConnectedDevices
    ensures Slots(r.1)
    ensures st.n <= r.1.n <= st.n + (|w| - i)
    decreases |w| - i, 0
  {
    var step := ConnectCandidate(w[i], i, st);
    match step.0
    case Return(ret) => (ret, step.1)
    case Next => PassFrom(w, i + 1, step.1)
  }

  /** What the kernel answers during one `cio2_bridge_build`. */
  datatype BuildWorld = BuildWorld(hidRegister: int, pass: seq<Candidate>, cio2Fwnode: bool)

  /** `cio2_bridge_build`: its return code and the final state. */
  function BuildSpec(w: BuildWorld, st: PassState): (r: (int, PassState))
    requires PassWorld(w.pass) && Slots(st) && st.n + |SupportedDevices| <= MaxConnectedDevices
    ensures Slots(r.1)
  {
    var log1 := st.log + [PciGet];
    if w.hidRegister < 0 then
      (w.hidRegister, st.(log := log1 + [PciPut]))
    else
      FinishBuild(w, PassFrom(w.pass, 0, st.(log := log1 + [HidRegister])))
  }

  /** The rest of `cio2_bridge_build`, from the result of `connect_supported_devices` on. */
  function FinishBuild(w: BuildWorld, pass: (int, PassState)): (r: (int, PassState))
    requires Slots(pass.1)
    ensures Slots(r.1)
  {
    var st2 := pass.1;
    if pass.0 == -EPROBE_DEFER then
      (pass.0, st2.(log := st2.log + [HidUnregister, PciPut]))
    else if st2.n == 0 then
      (-EPROBE_DEFER, st2.(log := st2.log + [HidUnregister, PciPut]))
    else if !w.cio2Fwnode then
      (-ENODEV, st2.(log := st2.log + UnregisterLog(st2.sensors, st2.n) + [HidUnregister, PciPut]))
    else
      (0, st2.(log := st2.log + [Cio2SetSecondary]))
  }

  /** `cio2_bridge_burn`: the state after it. */
  function BurnSpec(st: PassState): (r: PassState)
    requires Slots(st)
    ensures Slots(r)
  {
    st.(log := st.log + [PciPut] + UnregisterLog(st.sensors, st.n) + [HidUnregister])
  }

  /** The global `bridge` of the C module together with the kernel's record of what it holds. */
  class Bridge {
    var nSensors: int
    var sensors: array<Sensor>
    var log: seq<Call>

    ghost predicate Valid()
      reads this
    {
      sensors.Length == MaxConnectedDevices && 0 <= nSensors <= MaxConnectedDevices
    }

    function State(): PassState
      reads this, sensors
    {
      PassState(nSensors, sensors[..], log)
    }

    /** The zero-initialised static bridge. */
    constructor ()
      ensures Valid() && fresh(sensors)
      ensures nSensors == 0 && log == []
      ensures forall k :: 0 <= k < sensors.Length ==> sensors[k] == ZeroSensor()
    {
      nSensors := 0;
      sensors := new Sensor[MaxConnectedDevices](_ => ZeroSensor());
      log := [];
    }

    /**
     * `create_fwnode_properties` on the slot `n_sensors` points at, with the
     * allocation's outcome as a parameter.
     */
    method CreateFwnodeProperties(ssdb: SensorBiosData, allocOk: bool) returns (ret: int)
      requires Valid() && nSensors < MaxConnectedDevices
      modifies this, sensors
      ensures Valid() && sensors == old(sensors) && nSensors == old(nSensors)
      ensures var r := FwnodeProperties(old(sensors[nSensors]), ssdb, nSensors, allocOk);
        ret == r.0 && sensors[..] == old(sensors[..])[nSensors := r.1]
      ensures log == old(log) + (if ret == 0 then [LanesAlloc(nSensors)] else [])
    {
      var n := nSensors;
      sensors[n] := sensors[n].(devProperties := DevProperties(ssdb), epProperties := ZeroedEpProperties);
      if !allocOk {
        sensors[n] := sensors[n].(dataLanes := None);
        return -ENOMEM;
      }
      var lanes := new U32[ssdb.lanes];
      log := log + [LanesAlloc(n)];
      var k := 0;
      while k < ssdb.lanes
        invariant 0 <= k <= ssdb.lanes
        invariant Valid() && sensors == old(sensors) && nSensors == n && log == old(log) + [LanesAlloc(n)]
        invariant sensors[..] == old(sensors[..])[n := old(sensors[n]).(devProperties := DevProperties(ssdb),
          epProperties := ZeroedEpProperties)]
        invariant forall j :: 0 <= j < k ==> lanes[j] == j + 1
      {
        lanes[k] := k + 1;
        k := k + 1;
      }
      assert lanes[..] == LaneSeq(ssdb.lanes);
      sensors[n] := sensors[n].(dataLanes := Some(lanes[..]), epProperties := EpProperties(lanes[..], n),
                                cio2Properties := Cio2Properties(lanes[..], n));
      ret := 0;
    }

    /**
     * `create_connection_swnodes` on the slot `n_sensors` points at. The C
     * function always returns 0, so this method has no return code.
     */
    method CreateConnectionSwnodes(ssdb: SensorBiosData)
      requires Valid() && nSensors < MaxConnectedDevices && ssdb.link < |PortNames|
      modifies sensors
      ensures sensors[..] == old(sensors[..])[nSensors := old(sensors[nSensors]).(
        swnodes := ConnectionNodes(old(sensors[nSensors]).name, ssdb.link, nSensors))]
    {
      var n := nSensors;
      sensors[n] := sensors[n].(swnodes := ConnectionNodes(sensors[n].name, ssdb.link, n));
    }

    /** `cio2_bridge_unregister_sensors`; it leaves `n_sensors` as it was. */
    method UnregisterSensors()
      requires Valid()
      modifies this
      ensures Valid() && nSensors == old(nSensors) && sensors == old(sensors)
      ensures log == old(log) + UnregisterLog(sensors[..], nSensors)
    {
      ghost var slots := sensors[..];
      var k := 0;
      while k < nSensors
        invariant Valid() && nSensors == old(nSensors) && sensors == old(sensors) && sensors[..] == slots
        invariant 0 <= k <= nSensors
        invariant log == old(log) + UnregisterLog(slots, k)
      {
        ReleaseSlot(k);
        k := k + 1;
      }
    }

    /** One iteration of the loop of `cio2_bridge_unregister_sensors`. */
    method ReleaseSlot(k: nat)
      requires Valid() && k < sensors.Length
      modifies this
      ensures Valid() && nSensors == old(nSensors) && sensors == old(sensors)
      ensures log == old(log) + SlotRelease(sensors[k], k)
    {
      var s := sensors[k];
      var release := [NodesUnregister(k)];
      if s.dataLanes.Some? {
        release := release + [LanesFree(k)];
      }
      if s.dev.Some? {
        release := release + [DevPut(s.dev.value)];
      }
      if s.adev.Some? {
        release := release + [AcpiPut(s.adev.value)];
      }
      log := log + release;
    }

    /** The rollback chain of `connect_supported_devices`, entered at `entry`. */
    method Unwind(entry: Label, i: nat, ret: int)
      requires Valid()
      modifies this
      ensures Valid() && nSensors == old(nSensors) && sensors == old(sensors)
      ensures log == old(log) + UnwindLog(entry, i, ret, old(State()))
    {
      ghost var head := log;
      if entry == FreeSwnodes {
        log := log + [NodesUnregister(nSensors)];
      }
      if entry != Rollback {
        log := log + [DevPut(i)];
      }
      log := log + [AcpiPut(i)];
      assert log == head + UnwindPuts(entry, i, nSensors) by {
        match entry
        case FreeSwnodes => assert head + [NodesUnregister(nSensors)] + [DevPut(i)] + [AcpiPut(i)] == head + UnwindPuts(entry, i, nSensors);
        case FreeDev => assert head + [DevPut(i)] + [AcpiPut(i)] == head + UnwindPuts(entry, i, nSensors);
        case Rollback =>
      }
      if ret == -EPROBE_DEFER {
        UnregisterSensors();
        assert log == head + (UnwindPuts(entry, i, nSensors) + UnregisterLog(sensors[..], nSensors));
      }
    }

    /**
     * One iteration of the loop of `connect_supported_devices`, for candidate
     * `i`. The iteration is one C loop body; here its three stages are
     * methods of their own, cut where the reference functions are cut.
     */
    method TryCandidate(c: Candidate, i: nat) returns (outcome: StepOutcome)
      requires Valid() && StepPre(c, i, State())
      modifies this, sensors
      ensures Valid() && sensors == old(sensors)
      ensures (outcome, State()) == ConnectCandidate(c, i, old(State()))
    {
      if !c.acpiMatch {
        return Next;
      }
      log := log + [AcpiGet(i)];
      if !c.busDevice {
        Unwind(Rollback, i, -EPROBE_DEFER);
        return Return(-EPROBE_DEFER);
      }
      log := log + [DevGet(i)];
      var n := nSensors;
      sensors[n] := sensors[n].(dev := Some(i), adev := Some(i), name := SupportedDevices[i]);
      outcome := ReadSsdbAndConnect(c, i);
    }

    /** The iteration once the slot names the candidate's devices: the SSDB read and the properties. */
    method ReadSsdbAndConnect(c: Candidate, i: nat) returns (outcome: StepOutcome)
      requires Valid() && StepPre(c, i, State())
      modifies this, sensors
      ensures Valid() && sensors == old(sensors)
      ensures (outcome, State()) == ConnectFound(c, i, old(State()))
    {
      var n := nSensors;
      var ret, ssdb := GetAcpiSsdbSensorData(c.ssdb, c.stack, UnsetBiosData);
      if ret != 0 {
        Unwind(FreeDev, i, ret);
        return Return(ret);
      }
      ghost var st2 := State();
      ghost var props := FwnodeProperties(st2.sensors[n], ssdb, n, c.lanesAlloc);
      ret := CreateFwnodeProperties(ssdb, c.lanesAlloc);
      if ret != 0 {
        assert State() == st2.(sensors := st2.sensors[n := props.1]);
        Unwind(FreeDev, i, ret);
        return Return(ret);
      }
      CreateConnectionSwnodes(ssdb);
      assert sensors[..] == st2.sensors[n := props.1.(swnodes := ConnectionNodes(props.1.name, ssdb.link, n))];
      outcome := RegisterNodes(c, i);
    }

    /** The iteration once the graph is built: registration, the fwnode lookup and the commit. */
    method RegisterNodes(c: Candidate, i: nat) returns (outcome: StepOutcome)
      requires Valid() && StepPre(c, i, State())
      modifies this
      ensures Valid() && sensors == old(sensors)
      ensures (outcome, State()) == RegisterAndCommit(c, i, old(State()))
    {
      var n := nSensors;
      var ret := c.registerResult;
      if ret != 0 {
        Unwind(FreeDev, i, ret);
        return Return(ret);
      }
      log := log + [NodesRegister(n)];
      if !c.sensorFwnode {
        Unwind(FreeSwnodes, i, -ENODEV);
        return Return(-ENODEV);
      }
      log := log + [SensorSetSecondary(i, n)];
      nSensors := nSensors + 1;
      return Next;
    }

    /** `connect_supported_devices`: the loop over the supported IDs. */
    method ConnectSupportedDevices(w: seq<Candidate>) returns (ret: int)
      requires Valid() && PassWorld(w) && nSensors + |w| <= MaxConnectedDevices
      modifies this, sensors
      ensures Valid() && sensors == old(sensors)
      ensures (ret, State()) == PassFrom(w, 0, old(State()))
    {
      ret := 0;
      var i := 0;
      while i < |w|
        invariant 0 <= i <= |w| && Valid() && sensors == old(sensors)
        invariant nSensors + (|w| - i) <= MaxConnectedDevices
        invariant PassFrom(w, 0, old(State())) == PassFrom(w, i, State())
      {
        var outcome := TryCandidate(w[i], i);
        if outcome.Return? {
          return outcome.ret;
        }
        i := i + 1;
      }
    }

    /** `cio2_bridge_build`. */
    method Build(w: BuildWorld) returns (ret: int)
      requires Valid() && PassWorld(w.pass) && nSensors + |SupportedDevices| <= MaxConnectedDevices
      modifies this, sensors
      ensures Valid() && sensors == old(sensors)
      ensures (ret, State()) == BuildSpec(w, old(State()))
    {
      log := log + [PciGet];
      ret := w.hidRegister;
      if ret < 0 {
        log := log + [PciPut];
        return;
      }
      log := log + [HidRegister];
      ret := ConnectSupportedDevices(w.pass);
      if ret == -EPROBE_DEFER {
        log := log + [HidUnregister, PciPut];
        return;
      }
      if nSensors == 0 {
        ret := -EPROBE_DEFER;
        log := log + [HidUnregister, PciPut];
        return;
      }
      if !w.cio2Fwnode {
        ret := -ENODEV;
        UnregisterSensors();
        log := log + [HidUnregister, PciPut];
        return;
      }
      log := log + [Cio2SetSecondary];
      ret := 0;
    }

    /** `cio2_bridge_burn`. */
    method Burn()
      requires Valid()
      modifies this
      ensures Valid() && sensors == old(sensors)
      ensures State() == BurnSpec(old(State()))
    {
      log := log + [PciPut];
      UnregisterSensors();
      log := log + [HidUnregister];
    }
  }
}
