/**
 * The Tianma command-mode DSI panel driver.
 *
 * The driver fills the display core's table of panel hooks. The hooks send
 * short DCS/MCS commands to the panel through the DSI package sender, in
 * fixed orders that stop at the first failed send, and describe the panel's
 * single display mode. The DSI transport is an oracle: every send is
 * recorded with the code it returned. The module's globals (the init-code
 * choice and the two GPIO numbers) form the `Panel` object.
 */
module TianmaCmd {
  import opened Wrappers
  import opened Bytes
  import opened Errno
  import opened OrderedSends
  import opened GpioLines

  // DCS command bytes (MIPI Display Command Set).
  const ExitSleepMode: Byte := 0x11
  const SetDisplayOn: Byte := 0x29
  const SetTearOn: Byte := 0x35
  const WriteDisplayBrightness: Byte := 0x51
  const WriteCtrlDisplay: Byte := 0x53
  const WriteCtrlCabc: Byte := 0x55

  /** GPIO numbers used when the firmware lookup gives none. */
  const DefaultBiasEnGpio: int := 189
  const DefaultMipiResetGpio: int := 190

  /** Low-power or high-speed transmission of a package. */
  datatype TxMode = LowPower | HighSpeed

  /** A short MCS/DCS write: command byte, parameter byte, parameter count. */
  datatype Packet = Packet(cmd: Byte, param: Byte, paramLen: nat, mode: TxMode)

  /** The DSI sender reports failure with any non-zero code. */
  predicate Failed(err: int)
  {
    err != 0
  }

  /** What a stop-at-first-failure send sequence returns when it passes the code through. */
  function RawOutcome(run: seq<Attempt<Packet>>): (err: int)
    ensures err != 0 <==> |run| > 0 && Failed(run[|run| - 1].ret)
    ensures err != 0 ==> err == run[|run| - 1].ret
  {
    if |run| > 0 && Failed(run[|run| - 1].ret) then run[|run| - 1].ret else 0
  }

  /** A DSI configuration (`struct mdfld_dsi_config`) with its package sender. */
  class Dsi {
    const pipe: int
    /** Whether `mdfld_dsi_get_pkg_sender` finds a sender. */
    const hasSender: bool
    var sent: seq<Attempt<Packet>>

    constructor (pipe: int, hasSender: bool)
      ensures this.pipe == pipe && this.hasSender == hasSender && sent == []
    {
      this.pipe := pipe;
      this.hasSender := hasSender;
      sent := [];
    }

    /** `mdfld_dsi_send_mcs_short_lp` / `_hs`: one package, answered by the transport. */
    method Send(p: Packet) returns (err: int)
      modifies this
      ensures sent == old(sent) + [Attempt(p, err)]
    {
      err :| true;
      sent := sent + [Attempt(p, err)];
    }
  }

  /** A table of (command, parameter) pairs sent as one-parameter low-power writes, in order. */
  function PairPlan(pairs: seq<(Byte, Byte)>): (plan: seq<Packet>)
    ensures |plan| == |pairs|
    ensures forall k :: 0 <= k < |pairs| ==> plan[k] == Packet(pairs[k].0, pairs[k].1, 1, LowPower)
  {
    if pairs == [] then []
    else PairPlan(pairs[..|pairs| - 1]) + [Packet(pairs[|pairs| - 1].0, pairs[|pairs| - 1].1, 1, LowPower)]
  }

  /**
   * The fixed short init of `tianma_cmd_drv_ic_init`: select command page 1,
   * DC VCOM, pixel format, command mode, command page 1 again, MTP reload off.
   */
  function IcInitPairs(): (pairs: seq<(Byte, Byte)>)
    ensures |pairs| == 6
  {
    [(0xff, 0x10), (0xb3, 0x00), (0xc0, 0x01), (0xbb, 0x10), (0xff, 0x10), (0xfb, 0x01)]
  }

  /** The sends of `tianma_cmd_drv_ic_init`, written out. */
  function IcInitPlan(): (plan: seq<Packet>)
    ensures |plan| == 6
  {
    [ Packet(0xff, 0x10, 1, LowPower),
      Packet(0xb3, 0x00, 1, LowPower),
      Packet(0xc0, 0x01, 1, LowPower),
      Packet(0xbb, 0x10, 1, LowPower),
      Packet(0xff, 0x10, 1, LowPower),
      Packet(0xfb, 0x01, 1, LowPower) ]
  }

  /**
   * The short init sends exactly what the table-driven full init would send
   * for a table holding its six pairs.
   */
  lemma IcInitIsFullInitOfItsPairs()
    ensures IcInitPlan() == PairPlan(IcInitPairs())
  {
    var pairs := IcInitPairs();
    var full := PairPlan(pairs);
    forall k | 0 <= k < 6 ensures full[k] == IcInitPlan()[k] {
      assert full[k] == Packet(pairs[k].0, pairs[k].1, 1, LowPower);
    }
  }

  /** The sends of `tianma_cmd_power_on`: sleep out, display on, backlight control, full brightness, CABC off, tearing effect on. */
  function PowerOnPlan(): (plan: seq<Packet>)
    ensures |plan| == 6
  {
    [ Packet(ExitSleepMode, 0x00, 0, LowPower),
      Packet(SetDisplayOn, 0x00, 0, LowPower),
      Packet(WriteCtrlDisplay, 0x2c, 1, LowPower),
      Packet(WriteDisplayBrightness, 0xff, 1, LowPower),
      Packet(WriteCtrlCabc, 0x00, 1, LowPower),
      Packet(SetTearOn, 0x00, 1, LowPower) ]
  }

  /** The single send of `tianma_cmd_power_off`: backlight control off. */
  function PowerOffPlan(): seq<Packet>
  {
    [Packet(WriteCtrlDisplay, 0x00, 1, LowPower)]
  }

  /** Both init variants and power-off map a failed send to -EIO and otherwise return 0. */
  function MappedOutcome(run: seq<Attempt<Packet>>): (err: int)
    ensures err == 0 || err == -EIO
    ensures err == -EIO <==> RawOutcome(run) != 0
  {
    if |run| > 0 && Failed(run[|run| - 1].ret) then -EIO else 0
  }

  /** On a run that stops at its first failure, the mapped result is 0 exactly when every send went through. */
  lemma MappedOutcomeCompleted(plan: seq<Packet>, run: seq<Attempt<Packet>>)
    requires StopsAtFirstFailure(plan, run, Failed)
    ensures MappedOutcome(run) == 0 <==> Completed(plan, run, Failed)
  {
    IncompleteRunEndsInFailure(plan, run, Failed);
  }

  /** Sends the next planned package and extends the run by its attempt. */
  method SendNext(dsi: Dsi, plan: seq<Packet>, i: nat, ghost run: seq<Attempt<Packet>>, ghost start: seq<Attempt<Packet>>)
    returns (err: int, ghost run': seq<Attempt<Packet>>)
    requires dsi.sent == start + run && i == |run|
    requires GoodPrefix(plan, run, Failed) && |run| < |plan|
    modifies dsi
    ensures dsi.sent == start + run' && run' == run + [Attempt(plan[|run|], err)]
    ensures !Failed(err) ==> GoodPrefix(plan, run', Failed)
    ensures Failed(err) ==> StopsAtFirstFailure(plan, run', Failed) && !Completed(plan, run', Failed)
  {
    err := dsi.Send(plan[i]);
    run' := run + [Attempt(plan[|run|], err)];
    AttemptNext(plan, run, Attempt(plan[|run|], err), Failed);
  }

  /**
   * `tianma_cmd_drv_ic_init`: with no sender, -EINVAL and nothing sent;
   * otherwise the six fixed pairs in order, stopping at the first failure
   * with -EIO, and 0 when all went through.
   */
  method DrvIcInit(dsi: Dsi) returns (err: int, ghost run: seq<Attempt<Packet>>)
    modifies dsi
    ensures dsi.sent == old(dsi.sent) + run
    ensures !dsi.hasSender ==> err == -EINVAL && run == []
    ensures dsi.hasSender ==> StopsAtFirstFailure(IcInitPlan(), run, Failed)
    ensures dsi.hasSender ==> err == MappedOutcome(run)
  {
    run := [];
    if !dsi.hasSender {
      return -EINVAL, run;
    }
    ghost var start := dsi.sent;
    var plan := IcInitPlan();
    EmptyGoodPrefix(plan, Failed);
    err, run := SendNext(dsi, plan, 0, run, start);
    if err != 0 {
      return -EIO, run;
    }
    err, run := SendNext(dsi, plan, 1, run, start);
    if err != 0 {
      return -EIO, run;
    }
    err, run := SendNext(dsi, plan, 2, run, start);
    if err != 0 {
      return -EIO, run;
    }
    err, run := SendNext(dsi, plan, 3, run, start);
    if err != 0 {
      return -EIO, run;
    }
    err, run := SendNext(dsi, plan, 4, run, start);
    if err != 0 {
      return -EIO, run;
    }
    err, run := SendNext(dsi, plan, 5, run, start);
    if err != 0 {
      return -EIO, run;
    }
    GoodPrefixComplete(plan, run, Failed);
  }

  /**
   * `tianma_cmd_drv_ic_fullinit`: with no sender, -EINVAL and nothing sent;
   * otherwise every pair of the init table in table order, stopping at the
   * first failure with -EIO, and 0 when the whole table was sent.
   */
  method DrvIcFullInit(dsi: Dsi, table: seq<(Byte, Byte)>) returns (err: int, ghost run: seq<Attempt<Packet>>)
    modifies dsi
    ensures dsi.sent == old(dsi.sent) + run
    ensures !dsi.hasSender ==> err == -EINVAL && run == []
    ensures dsi.hasSender ==> StopsAtFirstFailure(PairPlan(table), run, Failed)
    ensures dsi.hasSender ==> err == MappedOutcome(run)
  {
    run := [];
    if !dsi.hasSender {
      return -EINVAL, run;
    }
    ghost var start := dsi.sent;
    ghost var plan := PairPlan(table);
    EmptyGoodPrefix(plan, Failed);
    err := 0;
    var i := 0;
    while i < |table|
      invariant 0 <= i <= |table| && |run| == i
      invariant dsi.sent == start + run
      invariant GoodPrefix(plan, run, Failed)
      invariant err == 0
    {
      var e := dsi.Send(Packet(table[i].0, table[i].1, 1, LowPower));
      AttemptNext(plan, run, Attempt(plan[i], e), Failed);
      run := run + [Attempt(plan[i], e)];
      if e != 0 {
        err := e;
        break;
      }
      i := i + 1;
    }
    if err != 0 {
      err := -EIO;
    } else {
      GoodPrefixComplete(plan, run, Failed);
    }
  }

  /**
   * `tianma_cmd_power_on`: the six power-on commands in order, stopping at
   * the first failure and returning that send's own code, not -EIO. The
   * sender is not checked for presence here.
   */
  method PowerOn(dsi: Dsi) returns (err: int, ghost run: seq<Attempt<Packet>>)
    modifies dsi
    ensures dsi.sent == old(dsi.sent) + run
    ensures StopsAtFirstFailure(PowerOnPlan(), run, Failed)
    ensures err == RawOutcome(run)
  {
    run := [];
    ghost var start := dsi.sent;
    var plan := PowerOnPlan();
    EmptyGoodPrefix(plan, Failed);
    err, run := SendNext(dsi, plan, 0, run, start);
    if err == 0 {
      err, run := SendNext(dsi, plan, 1, run, start);
    }
    if err == 0 {
      err, run := SendNext(dsi, plan, 2, run, start);
    }
    if err == 0 {
      err, run := SendNext(dsi, plan, 3, run, start);
    }
    if err == 0 {
      err, run := SendNext(dsi, plan, 4, run, start);
    }
    if err == 0 {
      err, run := SendNext(dsi, plan, 5, run, start);
    }
    if err == 0 {
      GoodPrefixComplete(plan, run, Failed);
    }
  }

  /**
   * The duty value of `tianma_cmd_set_brightness`: `(0xFF * level) / 255`
   * in C `int` arithmetic, stored into a `u8`.
   */
  function Duty(level: int): Byte
  {
    U8(CDiv(0xFF * level, 255))
  }

  /** The scaling is the identity: the duty is the level modulo 256, so exactly the level on 0..255. */
  lemma DutyIsLevel(level: int)
    ensures Duty(level) == level % 0x100
    ensures 0 <= level <= 0xFF ==> Duty(level) == level
  {
    if level < 0 {
      assert (-(0xFF * level)) / 255 == -level;
    } else {
      assert (0xFF * level) / 255 == level;
    }
  }

  /**
   * `tianma_cmd_set_brightness`: with no sender, -EINVAL and nothing sent;
   * otherwise one high-speed brightness write of the duty value, whose
   * result is ignored: the call returns 0 whatever the transport answered.
   */
  method SetBrightness(dsi: Dsi, level: int) returns (err: int)
    modifies dsi
    ensures !dsi.hasSender ==> err == -EINVAL && dsi.sent == old(dsi.sent)
    ensures dsi.hasSender ==> (err == 0 &&
      exists code :: dsi.sent == old(dsi.sent) + [Attempt(Packet(WriteDisplayBrightness, Duty(level), 1, HighSpeed), code)])
  {
    if !dsi.hasSender {
      return -EINVAL;
    }
    var ignored := dsi.Send(Packet(WriteDisplayBrightness, Duty(level), 1, HighSpeed));
    err := 0;
  }

  datatype ConnectionStatus = Connected | Disconnected

  /**
   * `tianma_cmd_panel_connection_detect`: a constant hook. The panel is wired
   * to pipe 0 and nowhere else; that is its whole behaviour, and the ensures
   * says exactly that.
   */
  function ConnectionDetect(pipe: int): (status: ConnectionStatus)
    ensures status == Connected <==> pipe == 0
  {
    if pipe == 0 then Connected else Disconnected
  }

  /** The fields of `struct drm_display_mode` the driver sets. */
  datatype DisplayMode = DisplayMode(
    hdisplay: int, hsyncStart: int, hsyncEnd: int, htotal: int,
    vdisplay: int, vsyncStart: int, vsyncEnd: int, vtotal: int,
    vrefresh: int, clock: int, preferred: bool)

  /** Pixel clock in kHz: refresh rate times total pixels per frame, divided by 1000 and rounded down. */
  function PixelClock(vrefresh: nat, vtotal: nat, htotal: nat): (khz: nat)
    ensures khz * 1000 <= vrefresh * vtotal * htotal < (khz + 1) * 1000
  {
    vrefresh * vtotal * htotal / 1000
  }

  /**
   * `tianma_cmd_get_config_mode`: the panel's only mode, or NULL when the
   * allocation fails (`allocOk` is the allocator's answer).
   */
  function GetConfigMode(allocOk: bool): (m: Option<DisplayMode>)
    ensures m.Some? <==> allocOk
  {
    if !allocOk then None
    else Some(DisplayMode(360, 392, 393, 425, 326, 336, 337, 343, 60, PixelClock(60, 343, 425), true))
  }

  /** A display mode whose sync pulses lie inside the blanking intervals and whose clock matches its timings. */
  ghost predicate WellFormedMode(m: DisplayMode)
  {
    && 0 < m.hdisplay < m.hsyncStart < m.hsyncEnd < m.htotal
    && 0 < m.vdisplay < m.vsyncStart < m.vsyncEnd < m.vtotal
    && m.vrefresh > 0
    && m.clock * 1000 <= m.vrefresh * m.vtotal * m.htotal < (m.clock + 1) * 1000
  }

  /** The mode is well formed, preferred, 360x326 at 60 Hz, and its clock is 8746 kHz. */
  lemma ConfigModeWellFormed(allocOk: bool)
    requires allocOk
    ensures WellFormedMode(GetConfigMode(allocOk).value)
    ensures GetConfigMode(allocOk).value.preferred
    ensures GetConfigMode(allocOk).value.clock == 8746
    ensures GetConfigMode(allocOk).value.hdisplay == 360 && GetConfigMode(allocOk).value.vdisplay == 326
  {
    var m := GetConfigMode(allocOk).value;
    assert m.vrefresh * m.vtotal * m.htotal == 8746500;
  }

  /** Physical size reported for the panel. */
  datatype PanelInfo = PanelInfo(widthMm: int, heightMm: int)

  /**
   * `tianma_cmd_get_panel_info`: a constant hook. On pipe 0 it reports
   * 40 mm by 40 mm; on any other pipe the record is left as it was. The
   * ensures is its whole behaviour.
   */
  function GetPanelInfo(pipe: int, pi: PanelInfo): (r: PanelInfo)
    ensures pipe == 0 ==> r == PanelInfo(40, 40)
    ensures pipe != 0 ==> r == pi
  {
    if pipe == 0 then pi.(widthMm := 40, heightMm := 40) else pi
  }

  /** A firmware GPIO lookup, with the driver's fallback for a missing line. */
  function GpioOrDefault(lookup: int, fallback: int): (g: int)
    ensures lookup > 0 ==> g == lookup
    ensures lookup <= 0 ==> g == fallback
    ensures fallback > 0 ==> g > 0
  {
    if lookup <= 0 then fallback else lookup
  }

  /** The hooks of `struct panel_funcs` this driver fills. */
  datatype Hook =
    | ResetHook | PowerOnHook | PowerOffHook | DrvIcInitHook | GetConfigModeHook
    | GetPanelInfoHook | DsiControllerInitHook | DetectHook | SetBrightnessHook | ExitDeepStandbyHook

  /** The driver functions a hook can point to. */
  datatype Handler =
    | PanelResetFn | PowerOnFn | PowerOffFn | IcInitFn | IcFullInitFn | GetConfigModeFn
    | GetPanelInfoFn | ControllerInitFn | DetectFn | SetBrightnessFn | ExitDeepStandbyFn

  /** The hook table `tianma_cmd_init` installs, for a given `panel_init_code` boot choice. */
  function PanelHooks(selectInitCode: int): map<Hook, Handler>
  {
    map[ResetHook := PanelResetFn, PowerOnHook := PowerOnFn, PowerOffHook := PowerOffFn,
        DrvIcInitHook := if selectInitCode != 0 then IcFullInitFn else IcInitFn,
        GetConfigModeHook := GetConfigModeFn, GetPanelInfoHook := GetPanelInfoFn,
        DsiControllerInitHook := ControllerInitFn, DetectHook := DetectFn,
        SetBrightnessHook := SetBrightnessFn, ExitDeepStandbyHook := ExitDeepStandbyFn]
  }

  /**
   * Every hook is filled, and the IC init hook is the table-driven full init
   * exactly when a non-zero init code was chosen at boot.
   */
  lemma PanelHooksChoice(code: int)
    ensures forall h: Hook :: h in PanelHooks(code)
    ensures PanelHooks(code)[DrvIcInitHook] == IcFullInitFn <==> code != 0
    ensures PanelHooks(code)[DrvIcInitHook] == IcInitFn <==> code == 0
  {
    forall h: Hook ensures h in PanelHooks(code) {
      match h
      case ResetHook =>
      case PowerOnHook =>
      case PowerOffHook =>
      case DrvIcInitHook =>
      case GetConfigModeHook =>
      case GetPanelInfoHook =>
      case DsiControllerInitHook =>
      case DetectHook =>
      case SetBrightnessHook =>
      case ExitDeepStandbyHook =>
    }
  }

  /** The display core's hook table for this panel. */
  class PanelFuncs {
    var hooks: map<Hook, Handler>

    constructor ()
      ensures hooks == map[]
    {
      hooks := map[];
    }
  }

  /** The driver's globals: the boot-time init-code choice and the two GPIO lines. */
  class Panel {
    var selectInitCode: int
    var biasEnGpio: int
    var mipiResetGpio: int
    const gpio: Gpio

    /** Static storage starts zeroed. */
    constructor (gpio: Gpio)
      ensures this.gpio == gpio && selectInitCode == 0 && biasEnGpio == 0 && mipiResetGpio == 0
    {
      this.gpio := gpio;
      selectInitCode := 0;
      biasEnGpio := 0;
      mipiResetGpio := 0;
    }

    /**
     * `parse_panel_init_code`: the `panel_init_code=` boot argument read as a
     * decimal; when it does not parse the choice is left as it was.
     * `parsed` is the result of `sscanf`. It always reports the argument handled.
     */
    method ParseInitCode(parsed: Option<int>) returns (handled: int)
      modifies this
      ensures handled == 1
      ensures selectInitCode == if parsed.Some? then parsed.value else old(selectInitCode)
      ensures biasEnGpio == old(biasEnGpio) && mipiResetGpio == old(mipiResetGpio)
    {
      if parsed.Some? {
        selectInitCode := parsed.value;
      }
      handled := 1;
    }

    /**
     * `tianma_cmd_init`: without a device or a hook table nothing happens;
     * otherwise the two GPIO numbers are looked up, falling back to 189 and
     * 190 when the lookup gives none, and every hook is filled — the IC init
     * hook with the full init exactly when an init code was chosen at boot.
     * `biasLookup` and `resetLookup` are the answers of `get_gpio_by_name`.
     */
    method Init(devPresent: bool, funcs: PanelFuncs?, biasLookup: int, resetLookup: int)
      modifies this, funcs
      ensures selectInitCode == old(selectInitCode)
      ensures !devPresent || funcs == null ==>
        biasEnGpio == old(biasEnGpio) && mipiResetGpio == old(mipiResetGpio) && (funcs != null ==> unchanged(funcs))
      ensures devPresent && funcs != null ==>
        && biasEnGpio == GpioOrDefault(biasLookup, DefaultBiasEnGpio)
        && mipiResetGpio == GpioOrDefault(resetLookup, DefaultMipiResetGpio)
        && funcs.hooks == old(funcs.hooks) + PanelHooks(selectInitCode)
    {
      if !devPresent || funcs == null {
        return;
      }
      biasEnGpio := GpioOrDefault(biasLookup, DefaultBiasEnGpio);
      mipiResetGpio := GpioOrDefault(resetLookup, DefaultMipiResetGpio);
      funcs.hooks := funcs.hooks + PanelHooks(selectInitCode);
    }

    /**
     * `tianma_cmd_power_off`: with no sender, -EINVAL and nothing sent;
     * otherwise the backlight-off command; if it fails, -EIO and the reset
     * line is left alone; if it succeeds, the panel reset line is driven low
     * and 0 is returned.
     */
    method PowerOff(dsi: Dsi) returns (err: int, ghost run: seq<Attempt<Packet>>)
      modifies dsi, gpio
      ensures selectInitCode == old(selectInitCode) && mipiResetGpio == old(mipiResetGpio)
      ensures !dsi.hasSender ==>
        err == -EINVAL && run == [] && dsi.sent == old(dsi.sent) && gpio.writes == old(gpio.writes)
      ensures dsi.hasSender ==>
        && dsi.sent == old(dsi.sent) + run
        && StopsAtFirstFailure(PowerOffPlan(), run, Failed)
        && err == MappedOutcome(run)
        && gpio.writes == old(gpio.writes) + (if err == 0 then [GpioWrite(mipiResetGpio, 0)] else [])
    {
      run := [];
      if !dsi.hasSender {
        return -EINVAL, run;
      }
      ghost var start := dsi.sent;
      var plan := PowerOffPlan();
      EmptyGoodPrefix(plan, Failed);
      err, run := SendNext(dsi, plan, 0, run, start);
      if err != 0 {
        return -EIO, run;
      }
      GoodPrefixComplete(plan, run, Failed);
      gpio.SetValue(mipiResetGpio, 0);
      err := 0;
    }
  }

  /**
   * `tianma_cmd_exit_deep_standby`: a constant hook. The panel needs no
   * deep-standby exit sequence, so it sends nothing and always succeeds.
   */
  method ExitDeepStandby(dsi: Dsi) returns (err: int)
    ensures err == 0
  {
    err := 0;
  }
}
