/**
 * The ISL97698 LED backlight controller driver.
 *
 * The chip sits on an I2C bus; its bias supply is switched by a GPIO line.
 * The driver writes a fixed default configuration at probe time, exposes the
 * brightness as a level 0..100 through sysfs, and maps that level onto the
 * 8-bit current register, capped at half scale to avoid current overload.
 * Every I2C transfer is answered by the bus, which is an oracle here: the
 * model records each transfer with the code the bus returned.
 */
module Isl97698 {
  import opened Wrappers
  import opened Bytes
  import opened Errno
  import opened OrderedSends
  import opened GpioLines

  // Register map.
  const RegLedH8: Byte := 0x00
  const RegLedL3: Byte := 0x01
  const RegConf: Byte := 0x02
  const RegPfm: Byte := 0x03
  const RegBoost: Byte := 0x04
  const RegStatus: Byte := 0x10

  // Fields of the boost-mode register used by the default configuration.
  const BstRateFastest: bv8 := 0xC0
  const BstSyncPulse: bv8 := 0x20
  const BstAbsEnable: bv8 := 0x10
  const BstFreq850kHz: bv8 := 0x0A

  /** Full scale of the current register, halved: the largest value the driver ever writes. */
  const ValMax: int := 0xFF / 2

  const LevelMin: int := 0
  const LevelMax: int := 100
  const LevelDef: int := 50

  /** Default configuration: PWM times I2C, faults on, channel 0 only. */
  const ConfDef: Byte := 0xB5
  /** PFM peak and average inductor current. */
  const PfmModeDef: Byte := 0x83
  /** Fastest boost rate, sync pulse load, ABS on, 850 kHz. */
  const BstModeDef: Byte := 0xFA

  const ChipDisable: int := 0
  const ChipEnable: int := 1

  /** Answer the bias-enable field of the platform data gives when there is no GPIO. */
  const NoBiasGpio: int := -1

  /**
   * The header builds these values with bit operations: the boost default
   * is the OR of its four fields, and the cap is full scale shifted right
   * once.
   */
  lemma ConstantsFromFields()
    ensures (BstRateFastest | BstSyncPulse | BstAbsEnable | BstFreq850kHz) as int == BstModeDef
    ensures (0xFF as bv8 >> 1) as int == ValMax
  {
  }

  /** An I2C transfer: a register write, or a register read (address, then one byte back). */
  datatype Xfer = WriteReg(reg: Byte, val: Byte) | ReadReg(reg: Byte)

  /** `i2c_transfer` reports failure with a negative code. */
  predicate Failed(ret: int)
  {
    ret < 0
  }

  /** The I2C adapter: every transfer is logged with the code it returned. */
  class I2cBus {
    var log: seq<Attempt<Xfer>>

    constructor ()
      ensures log == []
    {
      log := [];
    }

    /** `isl97698_i2c_write`: one message of two bytes, register then value. */
    method Write(reg: Byte, val: Byte) returns (ret: int)
      modifies this
      ensures log == old(log) + [Attempt(WriteReg(reg, val), ret)]
    {
      ret :| true;
      log := log + [Attempt(WriteReg(reg, val), ret)];
    }

    /** `isl97698_i2c_read`: the register address, then one byte read back. */
    method Read(reg: Byte) returns (ret: int, val: Byte)
      modifies this
      ensures log == old(log) + [Attempt(ReadReg(reg), ret)]
    {
      ret :| true;
      val :| true;
      log := log + [Attempt(ReadReg(reg), ret)];
    }
  }

  /** What a stop-at-first-failure sequence returns: the failing code, otherwise 0. */
  function Outcome(run: seq<Attempt<Xfer>>): (ret: int)
    ensures ret <= 0
    ensures ret != 0 <==> |run| > 0 && Failed(run[|run| - 1].ret)
    ensures ret != 0 ==> ret == run[|run| - 1].ret
  {
    if |run| > 0 && Failed(run[|run| - 1].ret) then run[|run| - 1].ret else 0
  }

  predicate ValidLevel(level: int)
  {
    LevelMin <= level <= LevelMax
  }

  /**
   * The register value for a brightness level: `(ValMax * level) / 100` in
   * C `int` arithmetic, stored into a `u8`. On the levels the driver accepts
   * it is the level scaled onto 0..ValMax, rounded down.
   */
  function RegValue(level: int): Byte
  {
    U8(CDiv(ValMax * level, LevelMax))
  }

  /** On the accepted levels the register value never exceeds the cap and is the scaled level rounded down. */
  lemma RegValueScaled(level: int)
    requires ValidLevel(level)
    ensures RegValue(level) <= ValMax
    ensures RegValue(level) * LevelMax <= ValMax * level < (RegValue(level) + 1) * LevelMax
  {
    var q := (ValMax * level) / LevelMax;
    assert 0 <= q <= ValMax;
    assert RegValue(level) == q;
  }

  /** A higher level never gives a lower register value. */
  lemma RegValueMonotonic(a: int, b: int)
    requires ValidLevel(a) && ValidLevel(b) && a <= b
    ensures RegValue(a) <= RegValue(b)
  {
    var x, y := ValMax * a, ValMax * b;
    assert 0 <= x <= y <= ValMax * LevelMax;
    assert x / LevelMax <= y / LevelMax <= ValMax;
    assert RegValue(a) == x / LevelMax && RegValue(b) == y / LevelMax;
  }

  /** The ends and the default of the range: off, half of full scale, and the default. */
  lemma RegValueLandmarks()
    ensures RegValue(LevelMin) == 0
    ensures RegValue(LevelMax) == ValMax == 127
    ensures RegValue(LevelDef) == 63
  {
  }

  /**
   * Outside 0..100 the C conversion wraps: level -1 would drive the full
   * 0xFF current and level 300 less than level 100. The range check of
   * the sysfs store is what keeps the cap.
   */
  lemma RegValueOutsideRangeBreaksCap()
    ensures RegValue(-1) == 0xFF > ValMax
    ensures RegValue(300) < RegValue(LevelMax)
  {
  }

  /** The single write of `brightness_set_value`. */
  function SetValuePlan(level: int): seq<Xfer>
  {
    [WriteReg(RegLedH8, RegValue(level))]
  }

  /** The three configuration writes of `brightness_defconfig`, before the default level. */
  function ConfigWrites(): seq<Xfer>
  {
    [WriteReg(RegConf, ConfDef), WriteReg(RegPfm, PfmModeDef), WriteReg(RegBoost, BstModeDef)]
  }

  /** Everything `brightness_defconfig` writes, in order. */
  function DefconfigPlan(): (p: seq<Xfer>)
    ensures |p| == 4 && p[3] == WriteReg(RegLedH8, RegValue(LevelDef))
  {
    ConfigWrites() + SetValuePlan(LevelDef)
  }

  /** The two reads of `brightness_chip_check`: current register, then status. */
  function ChipCheckPlan(): seq<Xfer>
  {
    [ReadReg(RegLedH8), ReadReg(RegStatus)]
  }

  /** The register values of the default configuration. */
  lemma DefconfigValues()
    ensures DefconfigPlan() == [WriteReg(0x02, 0xB5), WriteReg(0x03, 0x83), WriteReg(0x04, 0xFA), WriteReg(0x00, 63)]
  {
    RegValueLandmarks();
  }

  /** Makes the next planned register write and extends the run by its attempt. */
  method WriteNext(bus: I2cBus, plan: seq<Xfer>, i: nat, ghost run: seq<Attempt<Xfer>>, ghost start: seq<Attempt<Xfer>>)
    returns (ret: int, ghost run': seq<Attempt<Xfer>>)
    requires bus.log == start + run && i == |run|
    requires GoodPrefix(plan, run, Failed) && |run| < |plan| && plan[i].WriteReg?
    modifies bus
    ensures bus.log == start + run' && run' == run + [Attempt(plan[i], ret)]
    ensures !Failed(ret) ==> GoodPrefix(plan, run', Failed)
    ensures Failed(ret) ==> StopsAtFirstFailure(plan, run', Failed) && !Completed(plan, run', Failed)
  {
    ret := bus.Write(plan[i].reg, plan[i].val);
    run' := run + [Attempt(plan[i], ret)];
    AttemptNext(plan, run, Attempt(plan[i], ret), Failed);
  }

  /** The driver's per-chip state (`struct isl97698_st`). */
  class Chip {
    const bus: I2cBus
    const gpio: Gpio
    /** GPIO line that switches the bias supply. */
    const biasEn: int
    var enable: int
    var brightness: int

    ghost predicate Valid()
      reads this
    {
      ValidLevel(brightness) && (enable == ChipDisable || enable == ChipEnable)
    }

    /** `kzalloc` and the field setup of probe: enable and brightness start at zero. */
    constructor (bus: I2cBus, gpio: Gpio, biasEn: int)
      ensures this.bus == bus && this.gpio == gpio && this.biasEn == biasEn
      ensures enable == 0 && brightness == 0
      ensures Valid()
    {
      this.bus := bus;
      this.gpio := gpio;
      this.biasEn := biasEn;
      enable := 0;
      brightness := 0;
    }

    /**
     * `brightness_set_value`: one write of the scaled level; the stored
     * level changes only when the bus accepted it, and a bus error is
     * returned as it came.
     */
    method SetValue(level: int) returns (ret: int, ghost run: seq<Attempt<Xfer>>)
      requires Valid() && ValidLevel(level)
      modifies this, bus
      ensures Valid() && enable == old(enable)
      ensures bus.log == old(bus.log) + run
      ensures StopsAtFirstFailure(SetValuePlan(level), run, Failed)
      ensures ret == Outcome(run)
      ensures brightness == if Completed(SetValuePlan(level), run, Failed) then level else old(brightness)
    {
      ret := bus.Write(RegLedH8, RegValue(level));
      run := [Attempt(WriteReg(RegLedH8, RegValue(level)), ret)];
      if ret < 0 {
        return;
      }
      brightness := level;
      ret := 0;
    }

    /** `brightness_set_chip_enable`: drive the bias line and remember the setting. */
    method SetChipEnable(en: int)
      requires en == ChipDisable || en == ChipEnable
      requires Valid()
      modifies this, gpio
      ensures Valid()
      ensures enable == en && brightness == old(brightness)
      ensures gpio.writes == old(gpio.writes) + [GpioWrite(biasEn, en)]
    {
      gpio.SetValue(biasEn, en);
      enable := en;
    }

    /**
     * `brightness_defconfig`: the three configuration writes and then the
     * default level, stopping at the first bus error, whose code it returns.
     * The stored level becomes the default only when all four writes went
     * through.
     */
    method Defconfig() returns (ret: int, ghost run: seq<Attempt<Xfer>>)
      requires Valid()
      modifies this, bus
      ensures Valid() && enable == old(enable)
      ensures bus.log == old(bus.log) + run
      ensures StopsAtFirstFailure(DefconfigPlan(), run, Failed)
      ensures ret == Outcome(run)
      ensures brightness == if Completed(DefconfigPlan(), run, Failed) then LevelDef else old(brightness)
    {
      var plan := ConfigWrites();
      ghost var start := bus.log;
      run := [];
      EmptyGoodPrefix(plan, Failed);
      ret, run := WriteNext(bus, plan, 0, run, start);
      if ret >= 0 {
        ret, run := WriteNext(bus, plan, 1, run, start);
      }
      if ret >= 0 {
        ret, run := WriteNext(bus, plan, 2, run, start);
      }
      if ret < 0 {
        ThreeWritesStop(run);
        return;
      }
      ghost var level;
      ret, level := SetValue(LevelDef);
      ThenRun(plan, run, SetValuePlan(LevelDef), level, Failed);
      run := run + level;
    }

    /**
     * `brightness_chip_check`: read the current register, then the status
     * register. A bus error is returned; fault bits in the status only
     * produce a log message, so the result depends on the bus codes alone.
     */
    method ChipCheck() returns (ret: int, ghost run: seq<Attempt<Xfer>>)
      modifies bus
      ensures bus.log == old(bus.log) + run
      ensures StopsAtFirstFailure(ChipCheckPlan(), run, Failed)
      ensures ret == Outcome(run)
    {
      var val: Byte;
      ret, val := bus.Read(RegLedH8);
      run := [Attempt(ReadReg(RegLedH8), ret)];
      if ret < 0 {
        return;
      }
      ret, val := bus.Read(RegStatus);
      run := run + [Attempt(ReadReg(RegStatus), ret)];
      if ret < 0 {
        return;
      }
      ret := 0;
    }

    /** `brightness_show`: the level last stored. */
    function Show(): (level: int)
      requires Valid()
      reads this
      ensures ValidLevel(level) && level == brightness
    {
      brightness
    }

    /**
     * `brightness_store`: a text that is not a decimal integer, or a level
     * outside 0..100, is refused with -EINVAL and touches nothing; a bus
     * error on the write is reported as -EIO; otherwise the whole input is
     * consumed and the new level is what `Show` reports.
     * `parsed` is the result of `kstrtoint` on the text, None when it failed.
     */
    method Store(parsed: Option<int>, count: nat) returns (r: int, ghost run: seq<Attempt<Xfer>>)
      requires Valid()
      modifies this, bus
      ensures Valid() && enable == old(enable)
      ensures bus.log == old(bus.log) + run
      ensures (parsed.None? || !ValidLevel(parsed.value)) ==>
        r == -EINVAL && run == [] && brightness == old(brightness)
      ensures parsed.Some? && ValidLevel(parsed.value) ==>
        && StopsAtFirstFailure(SetValuePlan(parsed.value), run, Failed)
        && (r == if Completed(SetValuePlan(parsed.value), run, Failed) then count else -EIO)
        && (r >= 0 ==> Show() == parsed.value)
        && (r < 0 ==> brightness == old(brightness))
    {
      run := [];
      if parsed.None? {
        return -EINVAL, run;
      }
      var level := parsed.value;
      if level < LevelMin || level > LevelMax {
        return -EINVAL, run;
      }
      var ret;
      ret, run := SetValue(level);
      if ret < 0 {
        return -EIO, run;
      }
      r := count;
    }

    /** `isl97698_suspend`: switch the bias supply off. */
    method Suspend() returns (r: int)
      requires Valid()
      modifies this, gpio
      ensures Valid() && r == 0
      ensures enable == ChipDisable && brightness == old(brightness)
      ensures gpio.writes == old(gpio.writes) + [GpioWrite(biasEn, ChipDisable)]
    {
      SetChipEnable(ChipDisable);
      r := 0;
    }

    /** `isl97698_resume`: switch the bias supply back on; registers are not rewritten. */
    method Resume() returns (r: int)
      requires Valid()
      modifies this, gpio
      ensures Valid() && r == 0
      ensures enable == ChipEnable && brightness == old(brightness)
      ensures gpio.writes == old(gpio.writes) + [GpioWrite(biasEn, ChipEnable)]
    {
      SetChipEnable(ChipEnable);
      r := 0;
    }
  }

  /** A failing run of the three configuration writes is a failing run of the whole default configuration. */
  lemma ThreeWritesStop(run: seq<Attempt<Xfer>>)
    requires StopsAtFirstFailure(ConfigWrites(), run, Failed) && !Completed(ConfigWrites(), run, Failed)
    ensures StopsAtFirstFailure(DefconfigPlan(), run, Failed) && !Completed(DefconfigPlan(), run, Failed)
  {
    assert DefconfigPlan()[..|run|] == ConfigWrites()[..|run|];
  }

  /** `max_brightness_show`: the top of the range `Store` accepts. */
  function MaxBrightness(): (m: int)
    ensures ValidLevel(m) && forall level :: ValidLevel(level) ==> level <= m
  {
    LevelMax
  }

  /** The reads of the chip check followed by the writes of the default configuration. */
  function ProbePlan(): seq<Xfer>
  {
    ChipCheckPlan() + DefconfigPlan()
  }

  /**
   * `isl97698_probe`. The adapter must support plain I2C (-EOPNOTSUPP) and
   * the platform data must name a bias GPIO (-EIO); then the chip record is
   * allocated (-ENOMEM), the bias supply is switched on, the chip is checked
   * (-ENXIO), configured (-EIO) and its sysfs files created (that call's
   * code). After the allocation every failure frees the record, but the bias
   * line stays driven high. On success the chip is enabled at the default
   * level. I2C support, allocation and sysfs creation are parameters, and so
   * is the `bias_en` of the platform data, which the driver assumes present.
   */
  method Probe(bus: I2cBus, gpio: Gpio, i2cFunc: bool, pdataBiasEn: int, allocOk: bool, sysfsResult: int)
    returns (res: int, chip: Chip?, ghost run: seq<Attempt<Xfer>>)
    modifies bus, gpio
    ensures res == 0 <==> chip != null
    ensures chip != null ==>
      && fresh(chip) && chip.Valid() && chip.bus == bus && chip.gpio == gpio && chip.biasEn == pdataBiasEn
      && chip.enable == ChipEnable && chip.brightness == LevelDef
    ensures bus.log == old(bus.log) + run
    ensures !i2cFunc ==> res == -EOPNOTSUPP && run == [] && gpio.writes == old(gpio.writes)
    ensures i2cFunc && pdataBiasEn == NoBiasGpio ==> res == -EIO && run == [] && gpio.writes == old(gpio.writes)
    ensures i2cFunc && pdataBiasEn != NoBiasGpio && !allocOk ==> res == -ENOMEM && run == [] && gpio.writes == old(gpio.writes)
    ensures i2cFunc && pdataBiasEn != NoBiasGpio && allocOk ==>
      && gpio.writes == old(gpio.writes) + [GpioWrite(pdataBiasEn, ChipEnable)]
      && StopsAtFirstFailure(ProbePlan(), run, Failed)
      && (!Completed(ProbePlan(), run, Failed) ==> res == if |run| <= |ChipCheckPlan()| then -ENXIO else -EIO)
      && (Completed(ProbePlan(), run, Failed) ==> res == sysfsResult)
  {
    run := [];
    if !i2cFunc {
      return -EOPNOTSUPP, null, run;
    }
    if pdataBiasEn == NoBiasGpio {
      return -EIO, null, run;
    }
    if !allocOk {
      return -ENOMEM, null, run;
    }
    var c := new Chip(bus, gpio, pdataBiasEn);
    c.SetChipEnable(ChipEnable);
    res, run := c.ChipCheck();
    IncompleteRunEndsInFailure(ChipCheckPlan(), run, Failed);
    if res < 0 {
      CheckStops(run);
      return -ENXIO, null, run;
    }
    ghost var config;
    res, config := c.Defconfig();
    ThenRun(ChipCheckPlan(), run, DefconfigPlan(), config, Failed);
    IncompleteRunEndsInFailure(DefconfigPlan(), config, Failed);
    run := run + config;
    if res < 0 {
      return -EIO, null, run;
    }
    res := sysfsResult;
    if res != 0 {
      return res, null, run;
    }
    chip := c;
  }

  /** A failing chip check is a failing run of the whole probe sequence. */
  lemma CheckStops(run: seq<Attempt<Xfer>>)
    requires StopsAtFirstFailure(ChipCheckPlan(), run, Failed) && !Completed(ChipCheckPlan(), run, Failed)
    ensures StopsAtFirstFailure(ProbePlan(), run, Failed) && !Completed(ProbePlan(), run, Failed)
    ensures |run| <= |ChipCheckPlan()|
  {
    assert ProbePlan()[..|run|] == ChipCheckPlan()[..|run|];
  }
}
