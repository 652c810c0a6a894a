# Verified models of three Linux drivers

This project models three kernel drivers in Dafny and proves properties
of the models:

- **The CIO2 camera-sensor bridge** (`drivers/media/pci/intel/ipu3/cio2-bridge.c`, `cio2-bridge.h`).
  At probe time the bridge looks up each supported camera sensor in ACPI.
  For each sensor it reads the sensor's SSDB firmware record, builds the
  property sets and the six software nodes that connect the sensor to a
  port of the CIO2 receiver, and registers them. A global `bridge` holds a
  sensor counter and four sensor slots.
- **The ISL97698 backlight controller** (`drivers/misc/isl97698.c`). It is
  an I2C chip. It gets a fixed default configuration at probe time. A
  brightness level of 0..100 is scaled onto the current register and capped
  at half scale.
- **The Tianma command-mode DSI panel** (`drivers/external_drivers/intel_media/display/tng/drv/tianma_cmd.c`).
  It fills the display core's hook table. Each hook sends a fixed sequence
  of MCS/DCS commands, and the driver describes one display mode.

Everything outside the drivers is an oracle:

- **Bridge kernel services.** ACPI lookups, bus lookups, SSDB evaluation,
  allocation, node registration and fwnode lookup return answers given as
  a `Candidate` value for each supported ID and a `BuildWorld` for the
  whole build.
- **The bridge's call log.** `Bridge.log` records every kernel call that
  takes or drops a reference, an allocation or a registration.
  `Cio2BridgeProofs.Held` counts from that log what is still held.
- **I2C and DSI transfers.** These are methods that return an arbitrary
  code and log each attempt with the code it got.
- **Send sequences.** A sequence that "stops at the first failure" is
  specified by `OrderedSends.StopsAtFirstFailure` over the attempts it
  logged.
- **GPIO writes.** These are recorded in `GpioLines.Gpio.writes`.

The C state becomes classes:

- the global `bridge` becomes `Cio2Bridge.Bridge`, with a `sensors` array of four slots and `nSensors`;
- `struct isl97698_st` becomes `Isl97698.Chip`;
- the panel driver's globals become `TianmaCmd.Panel`.

Each class method is proved equal to a reference function of the old
state (`Cio2Bridge.PassFrom`, `BuildSpec`, `BurnSpec`) or to a
stop-at-first-failure run of a fixed plan. The lemmas prove the driver's
promises about those functions.

Some things follow the code where a comment in it suggests otherwise:

- A candidate failing with anything but `-EPROBE_DEFER` ends the loop of
  `connect_supported_devices`; the later candidates are not tried.
- `n_sensors` is never reset.
- A lane buffer allocated for a candidate that fails later is never freed.

These behaviours are proved as lemmas (`PassOutcome`,
`LaterCandidatesIgnored`, `RetryOverReleases`, `LanesLeakOnLateFailure`).

The SSDB record is read at its natural C layout. The token `__packed__`
after the struct is a declarator, not the packing attribute. The byte
offsets of the four projected fields (link 28, lanes 29, degree 86,
mclkspeed 88) and the size (112) are proved from the declared field list.

## Model

| member | source | states |
|---|---|---|
| Cio2BridgeDefs.SsdbLayout | drivers/media/pci/intel/ipu3/cio2-bridge.h:74-101 | The offsets the bridge reads link, lanes, degree and mclkspeed at, and the record size 112, are those of the natural C layout of the declared field list. |
| Cio2BridgeDefs.ProjectedFieldNames | drivers/media/pci/intel/ipu3/cio2-bridge.h:82-96 | The four fields the bridge keeps are the ones named link, lanes, degree and mclkspeed. |
| Cio2BridgeDefs.AlignUp | drivers/media/pci/intel/ipu3/cio2-bridge.h:74-101 | Field alignment gives the least multiple of the width that is at least the offset. |
| Cio2BridgeDefs.ZeroSensor | drivers/media/pci/intel/ipu3/cio2-bridge.h:51-64 | A zeroed slot has node and property buffers of the declared sizes 6, 3, 4 and 3, and no device handles or lanes. |
| Cio2BridgeDefs.LeU32OfLeBytes | drivers/media/pci/intel/ipu3/cio2-bridge.h:96 | Decoding the four little-endian bytes of a u32 gives the value back. |
| Cio2BridgeDefs.LeBytesOfLeU32 | drivers/media/pci/intel/ipu3/cio2-bridge.h:96 | Re-encoding a decoded u32 gives the four record bytes back. |
| Cio2BridgeDefs.FillFromRaw | drivers/media/pci/intel/ipu3/cio2-bridge.c:101-104 | The projected record takes link, lanes and degree from their bytes, takes mclkspeed as the u32 whose bytes are those at its offset, and keeps dev. |
| Cio2Bridge.ReadAcpiBlock | drivers/media/pci/intel/ipu3/cio2-bridge.c:51-89 | The return is non-negative iff the evaluation gave a buffer that fits. On failure it returns -ENODEV and the destination is unchanged. On success it returns the length, copies exactly that prefix and leaves the rest untouched. |
| Cio2Bridge.SsdbRaw | drivers/media/pci/intel/ipu3/cio2-bridge.c:94-99 | The record after a read exists iff the block fits, and it is 112 bytes long. |
| Cio2Bridge.GetAcpiSsdbSensorData | drivers/media/pci/intel/ipu3/cio2-bridge.c:91-107 | Returns 0 iff the block fits. On failure it returns -ENODEV and the record is unchanged. On success the record holds the four fields projected from the read block. |
| Cio2Bridge.LaneSeq | drivers/media/pci/intel/ipu3/cio2-bridge.c:133-134 | The lane array has length `lanes` and entry i holds i+1. |
| Cio2Bridge.ConnectCandidate | drivers/media/pci/intel/ipu3/cio2-bridge.c:204-249 | One iteration keeps the slot bounds, and the counter grows only on the path that goes on to the next candidate. |
| Cio2Bridge.PassFrom | drivers/media/pci/intel/ipu3/cio2-bridge.c:203-252 | The rest of the loop adds at most one sensor per remaining candidate. |
| Cio2Bridge.Bridge.constructor | drivers/media/pci/intel/ipu3/cio2-bridge.c:26 | The static bridge starts with zero sensors, four zeroed slots and nothing held. |
| Cio2Bridge.Bridge.CreateFwnodeProperties | drivers/media/pci/intel/ipu3/cio2-bridge.c:109-151 | The current slot gets the device properties and zeroed endpoints. If the allocation fails it returns -ENOMEM with no lanes. Otherwise the lanes loop fills 1..lanes and both endpoints carry them and the pool entries 2n and 2n+1. Only that slot changes. |
| Cio2Bridge.Bridge.CreateConnectionSwnodes | drivers/media/pci/intel/ipu3/cio2-bridge.c:153-174 | The current slot's node array becomes the six nodes of its graph, ending in the terminator; no other slot changes. |
| Cio2Bridge.Bridge.UnregisterSensors | drivers/media/pci/intel/ipu3/cio2-bridge.c:176-191 | Visits slots 0..n_sensors-1 in order. Each one unregisters its nodes, frees its lanes and puts dev and adev. `n_sensors` is left unchanged. |
| Cio2Bridge.Bridge.ReleaseSlot | drivers/media/pci/intel/ipu3/cio2-bridge.c:182-189 | One slot's release. Freeing or putting a NULL pointer does nothing. |
| Cio2Bridge.Bridge.Unwind | drivers/media/pci/intel/ipu3/cio2-bridge.c:254-271 | The goto labels fall through one into the next. Only -EPROBE_DEFER also unregisters every connected sensor. |
| Cio2Bridge.Bridge.TryCandidate | drivers/media/pci/intel/ipu3/cio2-bridge.c:204-249 | One loop iteration does exactly what `ConnectCandidate` says to the counter, the slots and the call log. |
| Cio2Bridge.Bridge.ReadSsdbAndConnect | drivers/media/pci/intel/ipu3/cio2-bridge.c:221-231 | The SSDB read and property stage equals its reference function. |
| Cio2Bridge.Bridge.RegisterNodes | drivers/media/pci/intel/ipu3/cio2-bridge.c:233-249 | Registration, the fwnode lookup and the commit equal their reference function. |
| Cio2Bridge.Bridge.ConnectSupportedDevices | drivers/media/pci/intel/ipu3/cio2-bridge.c:193-272 | The loop's return code and the new bridge state are those of the reference pass `PassFrom`. |
| Cio2Bridge.Bridge.Build | drivers/media/pci/intel/ipu3/cio2-bridge.c:274-320 | The return code and the new state are those of `BuildSpec`. |
| Cio2Bridge.Bridge.Burn | drivers/media/pci/intel/ipu3/cio2-bridge.c:322-329 | In order: puts the PCI device, unregisters all sensors, unregisters the HID node. |
| Cio2BridgeProofs.RemoteEndpointPool | drivers/media/pci/intel/ipu3/cio2-bridge.c:32-49 | The pool has 2 × 4 entries. For each slot n, entry 2n+ENDPOINT_SENSOR points at n's CIO2 endpoint and entry 2n+ENDPOINT_CIO2 at its sensor endpoint. |
| Cio2BridgeProofs.FailureCode | drivers/media/pci/intel/ipu3/cio2-bridge.c:208-241 | The code of a candidate that stops the loop is never 0. |
| Cio2BridgeProofs.CandidateOutcome | drivers/media/pci/intel/ipu3/cio2-bridge.c:203-250 | No ACPI match changes nothing. `n_sensors` grows by exactly one iff every check passes. Otherwise the loop returns the code of the first failing check. No other slot is touched and the log only grows. |
| Cio2BridgeProofs.ConnectedSlot | drivers/media/pci/intel/ipu3/cio2-bridge.c:214-248 | A connected slot names the candidate and its devices, clock-frequency is mclkspeed, rotation is degree, bus-type is 5, and lanes are 1..lanes. Every property buffer ends in a zeroed terminator. The graph is wired to `port_names[link]`. |
| Cio2BridgeProofs.GraphOfSlot | drivers/media/pci/intel/ipu3/cio2-bridge.c:153-174 | The written nodes form the chains sensor HID ← port0 ← endpoint0 and CIO2 HID ← port ← endpoint0. Node 5 is the terminator and the endpoints reference each other. |
| Cio2BridgeProofs.EndpointsOfSlot | drivers/media/pci/intel/ipu3/cio2-bridge.c:136-148 | Following the sensor endpoint's remote-endpoint reference reaches the slot's CIO2 endpoint, and the reverse holds too. Both carry the same lanes. |
| Cio2BridgeProofs.FirstStop | drivers/media/pci/intel/ipu3/cio2-bridge.c:203-250 | Finds the first candidate that ends the loop, with every candidate before it going on. |
| Cio2BridgeProofs.PassOutcome | drivers/media/pci/intel/ipu3/cio2-bridge.c:203-272 | A pass returns 0 iff no candidate stops it, having then connected every candidate that passes all checks. Otherwise it returns the first stopper's code, with only the candidates before it connected. Earlier slots are kept. |
| Cio2BridgeProofs.PassFitsSlots | drivers/media/pci/intel/ipu3/cio2-bridge.h:6 | A pass on a fresh bridge connects at most 2 sensors, fewer than MAX_CONNECTED_DEVICES. |
| Cio2BridgeProofs.LaterCandidatesIgnored | drivers/media/pci/intel/ipu3/cio2-bridge.c:222-252 | Candidates after the one that stops the loop are never consulted. |
| Cio2BridgeProofs.HeldAppend | drivers/media/pci/intel/ipu3/cio2-bridge.c:176-329 | What a log holds is additive over concatenation. |
| Cio2BridgeProofs.HoldingFrame | drivers/media/pci/intel/ipu3/cio2-bridge.c:176-191 | What connected slots hold depends only on those slots. |
| Cio2BridgeProofs.UnregisterReleasesHolding | drivers/media/pci/intel/ipu3/cio2-bridge.c:176-191 | Unregistering gives back exactly what slots 0..n-1 hold: every device reference, node group and lane buffer. |
| Cio2BridgeProofs.UnwindHeld | drivers/media/pci/intel/ipu3/cio2-bridge.c:254-271 | Each rollback entry point gives back what was taken before the jump to it, plus every connected slot on -EPROBE_DEFER. |
| Cio2BridgeProofs.StepHeld | drivers/media/pci/intel/ipu3/cio2-bridge.c:203-271 | An iteration that goes on takes exactly what its new slot holds. One that returns gives back all it took, and everything held on -EPROBE_DEFER, except a lane buffer allocated before a later failure. |
| Cio2BridgeProofs.PassHeld | drivers/media/pci/intel/ipu3/cio2-bridge.c:193-272 | Over a whole pass, the references taken are those the new slots hold, minus earlier holdings on a deferral, plus at most the leaked lane buffer. |
| Cio2BridgeProofs.BuildHeld | drivers/media/pci/intel/ipu3/cio2-bridge.c:274-320 | A successful build holds its PCI reference and HID node plus what its new slots hold. A failed build gives back everything it took, and from the pass on also what earlier slots held. Either way at most the leaked lane buffer remains. |
| Cio2BridgeProofs.FinishBuildHeld | drivers/media/pci/intel/ipu3/cio2-bridge.c:289-319 | After the pass, every failure path puts the PCI device and unregisters the HID node, and the fwnode failure also unregisters the sensors. |
| Cio2BridgeProofs.BurnHeld | drivers/media/pci/intel/ipu3/cio2-bridge.c:322-329 | The burn gives back what the slots hold plus the PCI reference and the HID node. |
| Cio2BridgeProofs.FreshBridgeBalanced | drivers/media/pci/intel/ipu3/cio2-bridge.c:274-329 | On a fresh bridge, both "build fails" and "build then burn" leave every resource balanced except the leaked lane buffer. |
| Cio2BridgeProofs.LanesLeakOnLateFailure | drivers/media/pci/intel/ipu3/cio2-bridge.c:233-259 | A registration or fwnode failure after the lane allocation returns that failure and leaves one lane buffer allocated. |
| Cio2BridgeProofs.BuildOutcome | drivers/media/pci/intel/ipu3/cio2-bridge.c:274-320 | The HID registration error is returned as is. Otherwise a pass that deferred or connected no sensor gives -EPROBE_DEFER, then a missing CIO2 fwnode gives -ENODEV, and the build returns 0 iff neither happened. It succeeds even when the pass returned another error after connecting a sensor. |
| Cio2BridgeProofs.RetryAfterFailedBuild | drivers/media/pci/intel/ipu3/cio2-bridge.c:176-191 | A successful retry after a failed build starts at the stale `n_sensors`. Retry followed by burn gives back the failed build's slots a second time. |
| Cio2BridgeProofs.RetryOverReleases | drivers/media/pci/intel/ipu3/cio2-bridge.c:181-191 | Concrete case: the first build defers after connecting slot 0 and the retry succeeds. The burn then leaves candidate 0's ACPI reference at -1. |
| Isl97698.ConstantsFromFields | drivers/misc/isl97698.c:76-94 | The boost default is the OR of its four fields (0xFA), and the cap `0xFF>>1` is 127. |
| Isl97698.Outcome | drivers/misc/isl97698.c:166-199 | A sequence returns a non-positive code, which is non-zero iff its last transfer failed, and then is that transfer's code. |
| Isl97698.RegValueScaled | drivers/misc/isl97698.c:148 | For levels 0..100 the register value is at most 127 and is the level scaled onto 0..127, rounded down. |
| Isl97698.RegValueMonotonic | drivers/misc/isl97698.c:148 | A higher level never gives a lower register value. |
| Isl97698.RegValueLandmarks | drivers/misc/isl97698.c:76-81 | Level 0 gives 0, level 100 gives 127 and the default 50 gives 63. |
| Isl97698.RegValueOutsideRangeBreaksCap | drivers/misc/isl97698.c:148 | Outside 0..100 the u8 store wraps: -1 would write 0xFF, and 300 writes less than 100 does. The range check in store is what keeps the cap. |
| Isl97698.DefconfigPlan | drivers/misc/isl97698.c:166-199 | The default configuration writes four registers, the last being the default level. |
| Isl97698.DefconfigValues | drivers/misc/isl97698.c:86-94 | In order: CONF=0xB5, PFM=0x83, BOOST=0xFA, then LED_H8=63. |
| Isl97698.I2cBus.Write | drivers/misc/isl97698.c:107-119 | One two-byte write message, logged with the adapter's code. |
| Isl97698.I2cBus.Read | drivers/misc/isl97698.c:121-139 | Address then one byte read back, logged with the adapter's code. |
| Isl97698.Chip.constructor | drivers/misc/isl97698.c:292-298 | The zeroed record keeps client and bias_en and starts disabled at level 0. |
| Isl97698.Chip.SetValue | drivers/misc/isl97698.c:141-158 | One write of the scaled level. It returns the bus error as it came, 0 otherwise, and the level is stored iff the write succeeded. |
| Isl97698.Chip.SetChipEnable | drivers/misc/isl97698.c:160-164 | Drives the bias GPIO to the value. `enable` becomes that value and the level is unchanged. |
| Isl97698.Chip.Defconfig | drivers/misc/isl97698.c:166-199 | The four writes in order, stopping at the first failure, whose code is returned. The level becomes 50 only when all four succeed. |
| Isl97698.Chip.ChipCheck | drivers/misc/isl97698.c:201-226 | Reads LED_H8 then STATUS, stopping at the first failure. The result depends only on the bus codes, so fault bits do not fail it. |
| Isl97698.Chip.Show | drivers/misc/isl97698.c:228-234 | The reported level is always within 0..100. |
| Isl97698.Chip.Store | drivers/misc/isl97698.c:236-253 | Unparsable or out-of-range input gives -EINVAL with no write and no state change. A failed write gives -EIO with the level unchanged. Success returns the count and Show then reports the new level. |
| Isl97698.Chip.Suspend | drivers/misc/isl97698.c:346-353 | Drives the bias line to 0, `enable` becomes 0, returns 0. |
| Isl97698.Chip.Resume | drivers/misc/isl97698.c:355-362 | Drives the bias line to 1, `enable` becomes 1, returns 0. |
| Isl97698.MaxBrightness | drivers/misc/isl97698.c:255-259 | The reported maximum is the top of the accepted range. |
| Isl97698.Probe | drivers/misc/isl97698.c:275-330 | In order: -EOPNOTSUPP, then -EIO for no bias GPIO, then -ENOMEM, each with nothing done. Then bias on, and the chip check and the configuration run as one stop-at-first-failure sequence: a check failure maps to -ENXIO and a configuration failure to -EIO. Otherwise the sysfs code is returned. Returns 0 iff a fresh chip, enabled at level 50, is returned. |
| Isl97698.ThreeWritesStop | drivers/misc/isl97698.c:171-190 | A failure in the first three writes ends the whole default configuration. |
| Isl97698.CheckStops | drivers/misc/isl97698.c:303-308 | A chip-check failure ends the probe's transfer sequence inside the check. |
| TianmaCmd.RawOutcome | drivers/external_drivers/intel_media/display/tng/drv/tianma_cmd.c:319-320 | The result is non-zero iff the last send failed, and is then that send's code. |
| TianmaCmd.MappedOutcome | drivers/external_drivers/intel_media/display/tng/drv/tianma_cmd.c:132-134 | The result is 0 or -EIO, and -EIO iff the raw result is non-zero. |
| TianmaCmd.MappedOutcomeCompleted | drivers/external_drivers/intel_media/display/tng/drv/tianma_cmd.c:175-179 | On a stop-at-first-failure run, -EIO mapping gives 0 iff every send went through. |
| TianmaCmd.PairPlan | drivers/external_drivers/intel_media/display/tng/drv/tianma_cmd.c:155-173 | Pair k of the table is sent as the k-th one-parameter low-power write. |
| TianmaCmd.IcInitIsFullInitOfItsPairs | drivers/external_drivers/intel_media/display/tng/drv/tianma_cmd.c:68-126 | The short init sends exactly what the table-driven init would send for a table of its six pairs. |
| TianmaCmd.Dsi.Send | drivers/external_drivers/intel_media/display/tng/drv/tianma_cmd.c:69-71 | One package, logged with the transport's code. |
| TianmaCmd.DrvIcInit | drivers/external_drivers/intel_media/display/tng/drv/tianma_cmd.c:52-135 | No sender gives -EINVAL with nothing sent. Otherwise it sends (0xff,0x10) (0xb3,0x00) (0xc0,0x01) (0xbb,0x10) (0xff,0x10) (0xfb,0x01) in order, stopping at the first failure with -EIO, and returns 0 when all were sent. |
| TianmaCmd.DrvIcFullInit | drivers/external_drivers/intel_media/display/tng/drv/tianma_cmd.c:137-180 | No sender gives -EINVAL with nothing sent. Otherwise the table's pairs are sent in order (the loop), stopping at the first failure with -EIO, and it returns 0 when the whole table was sent. |
| TianmaCmd.PowerOn | drivers/external_drivers/intel_media/display/tng/drv/tianma_cmd.c:240-321 | In order: exit sleep, display on, ctrl-display 0x2c, brightness 0xff, CABC 0x00, tear on 0x00. It stops at the first failure and returns that send's raw code. |
| TianmaCmd.Panel.PowerOff | drivers/external_drivers/intel_media/display/tng/drv/tianma_cmd.c:323-355 | No sender gives -EINVAL with nothing sent or driven. A failed backlight-off gives -EIO with the reset line untouched. On success the reset line is driven low and it returns 0. |
| TianmaCmd.DutyIsLevel | drivers/external_drivers/intel_media/display/tng/drv/tianma_cmd.c:364-371 | The duty `(0xFF*level)/255` stored into a u8 is level mod 256, so it is the level itself on 0..255. |
| TianmaCmd.SetBrightness | drivers/external_drivers/intel_media/display/tng/drv/tianma_cmd.c:357-376 | No sender gives -EINVAL with nothing sent. Otherwise one high-speed brightness write of the duty, and 0 whatever the transport answers. |
| TianmaCmd.ConnectionDetect | drivers/external_drivers/intel_media/display/tng/drv/tianma_cmd.c:220-238 | Connected iff the pipe is 0. |
| TianmaCmd.PixelClock | drivers/external_drivers/intel_media/display/tng/drv/tianma_cmd.c:436 | The clock in kHz is refresh × vtotal × htotal / 1000, rounded down. |
| TianmaCmd.GetConfigMode | drivers/external_drivers/intel_media/display/tng/drv/tianma_cmd.c:414-443 | Returns a mode iff the allocation succeeds. |
| TianmaCmd.ConfigModeWellFormed | drivers/external_drivers/intel_media/display/tng/drv/tianma_cmd.c:425-437 | The timings are 360<392<393<425 and 326<336<337<343. The mode is preferred with clock 8746 kHz, and the clock agrees with the timings. |
| TianmaCmd.GetPanelInfo | drivers/external_drivers/intel_media/display/tng/drv/tianma_cmd.c:445-455 | 40 mm × 40 mm on pipe 0; on any other pipe the record is unchanged. |
| TianmaCmd.GpioOrDefault | drivers/external_drivers/intel_media/display/tng/drv/tianma_cmd.c:465-472 | A positive lookup is kept, a lookup ≤ 0 falls back to the default, and a positive default gives a positive line. |
| TianmaCmd.PanelHooksChoice | drivers/external_drivers/intel_media/display/tng/drv/tianma_cmd.c:479-488 | Every hook is filled. The IC-init hook is the full init iff `select_init_code` ≠ 0, and the short init iff it is 0. |
| TianmaCmd.Panel.constructor | drivers/external_drivers/intel_media/display/tng/drv/tianma_cmd.c:37-50 | The static globals start zeroed. |
| TianmaCmd.Panel.ParseInitCode | drivers/external_drivers/intel_media/display/tng/drv/tianma_cmd.c:39-44 | A parsed code replaces the choice, an unparsable one leaves it, and it always returns 1. |
| TianmaCmd.Panel.Init | drivers/external_drivers/intel_media/display/tng/drv/tianma_cmd.c:457-489 | A missing device or hook table does nothing. Otherwise the GPIOs are the lookups or 189/190, and the hook table gets every hook with the init chosen by `select_init_code`. |
| TianmaCmd.ExitDeepStandby | drivers/external_drivers/intel_media/display/tng/drv/tianma_cmd.c:405-412 | Always returns 0. |
| OrderedSends.IncompleteRunEndsInFailure | drivers/misc/isl97698.c:166-199 | A stop-at-first-failure run either completes or ends with its one failing attempt. |
| OrderedSends.RunDeterminedByAnswers | drivers/external_drivers/intel_media/display/tng/drv/tianma_cmd.c:254-320 | The transport's answers determine the run: two runs of one plan with the same answers are equal. |
| OrderedSends.AttemptNext | drivers/external_drivers/intel_media/display/tng/drv/tianma_cmd.c:69-76 | A successful next attempt keeps the run a good prefix. A failing one ends it as a stopped, incomplete run. |
| OrderedSends.ThenRun | drivers/misc/isl97698.c:303-315 | A completed run of one sequence followed by a stopping run of another is a stopping run of both, complete iff the second is. |
| Bytes.U8 | drivers/misc/isl97698.c:144-148 | Storing into a u8 keeps the value mod 256, and leaves 0..255 unchanged. |
| Bytes.CDiv | drivers/misc/isl97698.c:148 | C division truncates toward zero: the floor quotient for a non-negative dividend, and it is negated for a negative one. |

## Left out

- `read_acpi_block`'s `kfree` of the ACPI buffer and `dev_err`/`dev_info` logging: they have no effect on results or on the references the bridge holds.
- `snprintf` into `sensor->name`: the supported IDs fit in `ACPI_ID_LEN`, so the name is the ID; truncation is not modelled.
- The aliasing of `data_lanes` into the endpoint property entries: the entries hold the lane values, not a pointer to the buffer.
- `Cio2Bridge.CandidateOk`: `port_names[ssdb->link]` is indexed without a bounds check, so the firmware answers are required to have link < 4. An out-of-range link is not modelled.
- `Cio2Bridge.Bridge.Build`: requires `n_sensors + 2 <= 4`. A build retried after failed builds can run past the four slots, because `n_sensors` is never reset; that overflow is not modelled. The case one retry reaches is proved in `RetryOverReleases`.
- `Cio2Bridge.Bridge.CreateConnectionSwnodes`: the C function always returns 0 and the caller's check never fires, so the model has no return code.
- `software_node_register`, `software_node_fwnode`, `set_secondary_fwnode`, the ACPI and bus lookups, `pci_dev_get`/`put` and `kmalloc_array` are oracles whose answers are parameters. They are not implemented.
- The mutex of the backlight driver: the model is single-threaded.
- `sysfs_create_group`: its result is a parameter. `isl97698_remove`, which only removes the sysfs group, is not modelled.
- `sprintf` formatting in `brightness_show` and `max_brightness_show`: the model returns the numbers.
- `kstrtoint`: an oracle, given as its parsed result or None.
- `sscanf` in `parse_panel_init_code`: an oracle, given as its parsed result or None.
- `Isl97698.Chip.SetValue`: requires a level in 0..100. Both callers (store after its range check, and defconfig with 50) guarantee that.
- `Isl97698.RegValue`: the C `int` product `127 * level` could overflow for huge levels; that is unreachable after the range check and is not modelled.
- `TianmaCmd.Duty`: the C `int` product `0xFF * level` could overflow; that is not modelled.
- `Isl97698.Probe`: after a failed probe the bias line stays high and the freed chip stays set as the I2C client data. The model returns no chip and does not model that dangling pointer.
- `Isl97698.Probe`: assumes the I2C client carries platform data. The probe reads `pdata->bias_en` (drivers/misc/isl97698.c:279, 287) with no NULL check, so a client without platform data dereferences NULL. The model takes the `bias_en` value as the parameter `pdataBiasEn` and does not model that dereference.
- `brightness_chip_check`'s fault-bit test only logs, so the value read back is not modelled.
- I2C transfer codes: `i2c_transfer` returns a positive message count on success, and every non-negative code counts as success, as in the driver.
- `msleep` and `usleep_range`: delays with no effect on results.
- `gpio_request`, `gpio_direction_output` and the `lnw_gpio_set_alt(68, 1)` pin-mux call in `tianma_cmd_init`: hardware setup with no effect on results.
- `tianma_cmd_panel_reset`: SCU IPC register access and GPIO sequencing of the power switch.
- `tianma_cmd_controller_init`: it only stores DSI controller register values whose macros are defined in headers that are not part of this model. The hook table records that the hook is installed.
- `readback_initcode`: it returns 0 immediately unless `TIANMA_DEBUG` is defined, and its result is ignored by both callers.
- `drm_mode_set_name` and `drm_mode_set_crtcinfo`: derived fields of the display mode.
- The contents of `tianma_init.h`: the init table is a parameter, a sequence of (command, argument) pairs, with `ARRAY_SIZE` taken as the number of pairs.
- `TianmaCmd.PowerOn`: `tianma_cmd_power_on` does not check for a sender; with none, the sends go to the transport oracle.
- MIPI DCS command values: exit-sleep 0x11, display-on 0x29, tear-on 0x35, brightness 0x51, ctrl-display 0x53 and CABC 0x55 are the MIPI Display Command Set values, since the header defining them is not part of this model.
- `isl97698.h`, `tianma_cmd.h`, `tianma_init.h` and the `mdfld_dsi` headers are not part of this model.
