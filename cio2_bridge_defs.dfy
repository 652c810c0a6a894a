/**
 * The CIO2 camera-sensor bridge header: slot and index constants, the
 * per-sensor record, the bridge record, the projected BIOS record and the
 * raw SSDB field list with the byte layout the C compiler gives it.
 */
module Cio2BridgeDefs {
  import opened Wrappers
  import opened Bytes
  type U32 = x: int | 0 <= x < 0x1_0000_0000

  /** Capacity of the bridge's sensor array. */
  const MaxConnectedDevices: nat := 4

  /** Positions in a sensor's software-node array. */
  const SwnodeSensorHid: nat := 0
  const SwnodeSensorPort: nat := 1
  const SwnodeSensorEndpoint: nat := 2
  const SwnodeCio2Port: nat := 3
  const SwnodeCio2Endpoint: nat := 4
  const SwnodeNullTerminator: nat := 5
  /** `struct sensor` holds `swnodes[6]`: five nodes and a zeroed terminator. */
  const SwnodeCount: nat := 6

  const Cio2Hid: string := "INT343E"
  const Cio2PciId: nat := 0x9d32

  /** Which of a slot's two remote-endpoint references: the even or the odd one. */
  const EndpointSensor: nat := 0
  const EndpointCio2: nat := 1

  /** Sizes of the three property buffers of `struct sensor`. */
  const DevPropertiesLen: nat := 3
  const EpPropertiesLen: nat := 4
  const Cio2PropertiesLen: nat := 3

  /** A node the graph can point at: node `index` of sensor slot `slot`, or the shared CIO2 HID node. */
  datatype NodeRef = SlotNode(slot: nat, index: nat) | Cio2HidNode

  /** Which property buffer of which slot a software node carries. */
  datatype PropsRef = NoProps | DevProps(slot: nat) | EpProps(slot: nat) | Cio2Props(slot: nat)

  /** One `struct property_entry`; `Empty` is a zeroed entry, the terminator. */
  datatype Property =
    | Empty
    | U32Prop(name: string, u32: U32)
    | U8Prop(name: string, u8: Byte)
    | U32ArrayProp(name: string, values: seq<U32>)
    | RefProp(name: string, target: NodeRef)

  /** One `struct software_node`; `NullNode` is a zeroed entry, the terminator. */
  datatype SoftwareNode = NullNode | SwNode(name: string, parent: Option<NodeRef>, props: PropsRef)

  /**
   * `struct sensor`. Device handles are the index of the candidate they were
   * found for; `None` is a NULL pointer. `dataLanes` is the contents of the
   * `data_lanes` allocation, `None` when the pointer is NULL.
   */
  datatype Sensor = Sensor(
    name: string,
    dev: Option<nat>,
    adev: Option<nat>,
    swnodes: seq<SoftwareNode>,
    devProperties: seq<Property>,
    epProperties: seq<Property>,
    cio2Properties: seq<Property>,
    dataLanes: Option<seq<U32>>)

  /** A zero-initialised `struct sensor`, as the static bridge starts out. */
  function ZeroSensor(): (s: Sensor)
    ensures |s.swnodes| == SwnodeCount && |s.devProperties| == DevPropertiesLen
    ensures |s.epProperties| == EpPropertiesLen && |s.cio2Properties| == Cio2PropertiesLen
    ensures s.dev == None && s.adev == None && s.dataLanes == None
  {
    Sensor("", None, None, seq(SwnodeCount, _ => NullNode), seq(DevPropertiesLen, _ => Empty),
           seq(EpPropertiesLen, _ => Empty), seq(Cio2PropertiesLen, _ => Empty), None)
  }

  /** The shape every slot of the bridge keeps: buffers of the declared sizes. */
  predicate SensorShaped(s: Sensor)
  {
    && |s.swnodes| == SwnodeCount
    && |s.devProperties| == DevPropertiesLen
    && |s.epProperties| == EpPropertiesLen
    && |s.cio2Properties| == Cio2PropertiesLen
  }

  /** `struct sensor_bios_data`: the fields the bridge keeps out of the raw record. */
  datatype SensorBiosData = SensorBiosData(dev: Option<nat>, link: Byte, lanes: Byte, degree: Byte, mclkspeed: U32)

  // ---------------------------------------------------------------------------
  // The raw SSDB record, `struct sensor_bios_data_packed`.
  //
  // The token after its closing brace, `__packed__`, names a variable; it is
  // not the compiler's packing attribute. The struct therefore has the
  // natural layout: each field starts at the next multiple of its element
  // width (1 for u8, 4 for u32) and the struct size is rounded up to 4.
  // ---------------------------------------------------------------------------

  datatype ScalarType = U8Field | U32Field

  /** One field of the raw record: its name, element type and element count. */
  datatype RawField = RawField(name: string, ty: ScalarType, count: nat)

  /** The field list of `struct sensor_bios_data_packed`, in declaration order. */
  const SsdbFields: seq<RawField> := [
    RawField("version", U8Field, 1),
    RawField("sku", U8Field, 1),
    RawField("guid_csi2", U8Field, 16),
    RawField("devfunction", U8Field, 1),
    RawField("bus", U8Field, 1),
    RawField("dphylinkenfuses", U32Field, 1),
    RawField("clockdiv", U32Field, 1),
    RawField("link", U8Field, 1),
    RawField("lanes", U8Field, 1),
    RawField("csiparams", U32Field, 10),
    RawField("maxlanespeed", U32Field, 1),
    RawField("sensorcalibfileidx", U8Field, 1),
    RawField("sensorcalibfileidxInMBZ", U8Field, 3),
    RawField("romtype", U8Field, 1),
    RawField("vcmtype", U8Field, 1),
    RawField("platforminfo", U8Field, 1),
    RawField("platformsubinfo", U8Field, 1),
    RawField("flash", U8Field, 1),
    RawField("privacyled", U8Field, 1),
    RawField("degree", U8Field, 1),
    RawField("mipilinkdefined", U8Field, 1),
    RawField("mclkspeed", U32Field, 1),
    RawField("controllogicid", U8Field, 1),
    RawField("reserved1", U8Field, 3),
    RawField("mclkport", U8Field, 1),
    RawField("reserved2", U8Field, 13)
  ]

  /** Positions, in `SsdbFields`, of the four fields the bridge projects. */
  const FieldLink: nat := 7
  const FieldLanes: nat := 8
  const FieldDegree: nat := 19
  const FieldMclkspeed: nat := 21

  function Width(t: ScalarType): (w: nat)
    ensures w == 1 || w == 4
  {
    match t
    case U8Field => 1
    case U32Field => 4
  }

  /** The least multiple of the width `a` that is at least `x`. */
  function AlignUp(x: nat, a: nat): (r: nat)
    requires a == 1 || a == 4
    ensures x <= r < x + a && r % a == 0
  {
    if a == 1 then x else (x + 3) / 4 * 4
  }

  /**
   * The field list without the names: element width and element count of
   * each field, in declaration order.
   */
  const SsdbShape: seq<(nat, nat)> :=
    seq(|SsdbFields|, k requires 0 <= k < |SsdbFields| => (Width(SsdbFields[k].ty), SsdbFields[k].count))

  /** Element `k` of the shape is the width and count of field `k`. */
  lemma ShapeOf(k: nat)
    requires k < |SsdbFields|
    ensures |SsdbShape| == |SsdbFields|
    ensures SsdbShape[k] == (Width(SsdbFields[k].ty), SsdbFields[k].count)
  { }

  /** Byte offset of each field of the raw record, in declaration order. */
  const SsdbOffsets: seq<nat> := [
    0, 1, 2, 18, 19, 20, 24, 28, 29, 32,
    72, 76, 77, 80, 81, 82, 83, 84, 85, 86,
    87, 88, 92, 93, 96, 97
  ]

  /**
   * Field `k` of `shape` has width 1 or 4 and starts at the first multiple of
   * its width past the end of field `k - 1`.
   */
  predicate LayoutStep(shape: seq<(nat, nat)>, offsets: seq<nat>, k: nat)
    requires 1 <= k < |shape| && |offsets| == |shape|
  {
    && (shape[k].0 == 1 || shape[k].0 == 4)
    && offsets[k] == AlignUp(offsets[k - 1] + shape[k - 1].0 * shape[k - 1].1, shape[k].0)
  }

  /**
   * `offsets` is the natural layout of `shape`: the first field starts at 0
   * and every later one at the first multiple of its width past the end of
   * the field before it.
   */
  ghost predicate NaturalLayout(shape: seq<(nat, nat)>, offsets: seq<nat>)
  {
    && |offsets| == |shape|
    && (|shape| > 0 ==> offsets[0] == 0)
    && (forall k :: 1 <= k < |shape| ==> LayoutStep(shape, offsets, k))
  }

  /** `sizeof` of a naturally laid out record whose widest field is 4 bytes. */
  function RecordSize(shape: seq<(nat, nat)>, offsets: seq<nat>): nat
    requires |shape| > 0 && |offsets| == |shape|
  {
    var last := |shape| - 1;
    AlignUp(offsets[last] + shape[last].0 * shape[last].1, 4)
  }

  /** The layout constants the bridge reads the record with. */
  const LinkOffset: nat := 28
  const LanesOffset: nat := 29
  const DegreeOffset: nat := 86
  const MclkspeedOffset: nat := 88
  const SsdbSize: nat := 112

  /** The four projected fields sit at the positions named above. */
  lemma ProjectedFieldNames()
    ensures SsdbFields[FieldLink].name == "link" && SsdbFields[FieldLanes].name == "lanes"
    ensures SsdbFields[FieldDegree].name == "degree" && SsdbFields[FieldMclkspeed].name == "mclkspeed"
  {
  }

  /**
   * The offsets and the size the bridge uses are those of the natural layout
   * of the declared field list.
   */
  lemma SsdbLayout()
    ensures NaturalLayout(SsdbShape, SsdbOffsets)
    ensures SsdbOffsets[FieldLink] == LinkOffset && SsdbOffsets[FieldLanes] == LanesOffset
    ensures SsdbOffsets[FieldDegree] == DegreeOffset && SsdbOffsets[FieldMclkspeed] == MclkspeedOffset
    ensures RecordSize(SsdbShape, SsdbOffsets) == SsdbSize
  {
    LayoutOfFields1To3();
    LayoutOfFields4To6();
    LayoutOfFields7To9();
    LayoutOfFields10To12();
    LayoutOfFields13To15();
    LayoutOfFields16To18();
    LayoutOfFields19To21();
    LayoutOfFields22To25();
  }

  /** Fields 1 to 3: the SKU, the CSI-2 GUID and the device function. */
  lemma LayoutOfFields1To3()
    ensures forall k :: 1 <= k < 4 ==> LayoutStep(SsdbShape, SsdbOffsets, k)
  {
    forall k | 1 <= k < 4 ensures LayoutStep(SsdbShape, SsdbOffsets, k) {
      ShapeOf(k - 1);
      ShapeOf(k);
    }
  }

  /** Fields 4 to 6: the bus number and the two leading u32s. */
  lemma LayoutOfFields4To6()
    ensures forall k :: 4 <= k < 7 ==> LayoutStep(SsdbShape, SsdbOffsets, k)
  {
    forall k | 4 <= k < 7 ensures LayoutStep(SsdbShape, SsdbOffsets, k) {
      ShapeOf(k - 1);
      ShapeOf(k);
    }
  }

  /** Fields 7 to 9: link, lanes and the CSI parameters. */
  lemma LayoutOfFields7To9()
    ensures forall k :: 7 <= k < 10 ==> LayoutStep(SsdbShape, SsdbOffsets, k)
  {
    forall k | 7 <= k < 10 ensures LayoutStep(SsdbShape, SsdbOffsets, k) {
      ShapeOf(k - 1);
      ShapeOf(k);
    }
  }

  /** Fields 10 to 12: the lane speed and the calibration file index. */
  lemma LayoutOfFields10To12()
    ensures forall k :: 10 <= k < 13 ==> LayoutStep(SsdbShape, SsdbOffsets, k)
  {
    forall k | 10 <= k < 13 ensures LayoutStep(SsdbShape, SsdbOffsets, k) {
      ShapeOf(k - 1);
      ShapeOf(k);
    }
  }

  /** Fields 13 to 15: ROM type, VCM type and platform. */
  lemma LayoutOfFields13To15()
    ensures forall k :: 13 <= k < 16 ==> LayoutStep(SsdbShape, SsdbOffsets, k)
  {
    forall k | 13 <= k < 16 ensures LayoutStep(SsdbShape, SsdbOffsets, k) {
      ShapeOf(k - 1);
      ShapeOf(k);
    }
  }

  /** Fields 16 to 18: sub-platform, flash and privacy LED. */
  lemma LayoutOfFields16To18()
    ensures forall k :: 16 <= k < 19 ==> LayoutStep(SsdbShape, SsdbOffsets, k)
  {
    forall k | 16 <= k < 19 ensures LayoutStep(SsdbShape, SsdbOffsets, k) {
      ShapeOf(k - 1);
      ShapeOf(k);
    }
  }

  /** Fields 19 to 21: degree, the MIPI link flag and the clock. */
  lemma LayoutOfFields19To21()
    ensures forall k :: 19 <= k < 22 ==> LayoutStep(SsdbShape, SsdbOffsets, k)
  {
    forall k | 19 <= k < 22 ensures LayoutStep(SsdbShape, SsdbOffsets, k) {
      ShapeOf(k - 1);
      ShapeOf(k);
    }
  }

  /** Fields 22 to 25: control logic, clock port and the reserved tail. */
  lemma LayoutOfFields22To25()
    ensures forall k :: 22 <= k < 26 ==> LayoutStep(SsdbShape, SsdbOffsets, k)
  {
    forall k | 22 <= k < 26 ensures LayoutStep(SsdbShape, SsdbOffsets, k) {
      ShapeOf(k - 1);
      ShapeOf(k);
    }
  }

  /** A little-endian u32 (the byte order of x86) read at `off`. */
  function LeU32(raw: seq<Byte>, off: nat): (v: U32)
    requires off + 4 <= |raw|
    ensures v % 0x100 == raw[off]
  {
    var b0: int, b1: int, b2: int, b3: int := raw[off], raw[off + 1], raw[off + 2], raw[off + 3];
    b0 + 0x100 * b1 + 0x1_0000 * b2 + 0x100_0000 * b3
  }

  /** The four little-endian bytes of a 32-bit value. */
  function LeBytes(v: U32): (r: seq<Byte>)
    ensures |r| == 4
  {
    [(v % 0x100) as Byte, (v / 0x100 % 0x100) as Byte, (v / 0x1_0000 % 0x100) as Byte, (v / 0x100_0000) as Byte]
  }

  /** Reading a value back from its little-endian bytes gives the value. */
  lemma LeU32OfLeBytes(v: U32)
    ensures LeU32(LeBytes(v), 0) == v
  {
    var q1 := v / 0x100;
    var q2 := q1 / 0x100;
    assert v == v % 0x100 + 0x100 * q1;
    assert q1 == q1 % 0x100 + 0x100 * q2;
    assert q2 == q2 % 0x100 + 0x100 * (q2 / 0x100);
    assert v / 0x1_0000 == q2;
    assert v / 0x100_0000 == q2 / 0x100;
  }

  /** The bytes of a value read from a record are the record's four bytes at that offset. */
  lemma LeBytesOfLeU32(raw: seq<Byte>, off: nat)
    requires off + 4 <= |raw|
    ensures LeBytes(LeU32(raw, off)) == raw[off..off + 4]
  {
    var b0: int, b1: int, b2: int, b3: int := raw[off], raw[off + 1], raw[off + 2], raw[off + 3];
    var v := LeU32(raw, off);
    assert v == b0 + 0x100 * (b1 + 0x100 * (b2 + 0x100 * b3));
    DigitSplit(b0, b1 + 0x100 * (b2 + 0x100 * b3));
    DigitSplit(b1, b2 + 0x100 * b3);
    DigitSplit(b2, b3);
    assert v / 0x1_0000 == v / 0x100 / 0x100;
    assert v / 0x100_0000 == v / 0x1_0000 / 0x100;
  }

  /** Base-256 digits: the low digit and the rest of `d + 256 * rest`. */
  lemma DigitSplit(d: int, rest: int)
    requires 0 <= d < 0x100 && 0 <= rest
    ensures (d + 0x100 * rest) % 0x100 == d && (d + 0x100 * rest) / 0x100 == rest
  {
  }

  /**
   * The four field assignments of `get_acpi_ssdb_sensor_data`: the record's
   * link, lanes and degree are the bytes at their offsets, mclkspeed is the
   * little-endian u32 whose four bytes are those at its offset; `dev` is kept.
   */
  function FillFromRaw(s: SensorBiosData, raw: seq<Byte>): (r: SensorBiosData)
    requires |raw| == SsdbSize
    ensures r.dev == s.dev
    ensures r.link == raw[LinkOffset] && r.lanes == raw[LanesOffset] && r.degree == raw[DegreeOffset]
    ensures LeBytes(r.mclkspeed) == raw[MclkspeedOffset..MclkspeedOffset + 4]
  {
    LeBytesOfLeU32(raw, MclkspeedOffset);
    s.(link := raw[LinkOffset], lanes := raw[LanesOffset],
       mclkspeed := LeU32(raw, MclkspeedOffset), degree := raw[DegreeOffset])
  }
}
