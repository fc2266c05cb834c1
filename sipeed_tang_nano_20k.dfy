/** The Sipeed Tang Nano 20K target: its clock/reset generator, whose POR
    counter holds the PLL in reset, and the optional parts `BaseSoC` adds on
    top of `SoCCore`. */
module TangNano20k {
  import opened PowerOnReset
  import opened SocRegions

  /** Bus origin of the WS2812 RGB LED's register. */
  const RgbLedOrigin: nat := 0x2000_0000

  /** Size in bytes of the RGB LED's region. */
  const RgbLedSize: nat := 4

  /** `_CRG`: the POR counter is clocked straight from the 27 MHz
      oscillator and `~por_done` is the PLL's reset. `rst` is declared but
      plays no part in the reset. */
  class Crg {
    const por: PorCounter
    var rst: bool

    ghost predicate Valid()
      reads this, por
    {
      por.Valid()
    }

    constructor ()
      ensures Valid() && fresh(por) && por.ticks == 0 && !rst
    {
      por := new PorCounter();
      rst := false;
    }

    /** One tick of the `por` domain. */
    method Tick()
      requires Valid()
      modifies por
      ensures Valid() && por.ticks == old(por.ticks) + 1
      ensures por.count == Next(old(por.count))
    {
      por.Tick();
    }

    /** An external write to the `rst` signal. */
    method SetRst(value: bool)
      requires Valid()
      modifies this
      ensures Valid() && rst == value
    {
      rst := value;
    }

    /** `pll.reset`: asserted exactly during the first 65535 ticks, whatever
        `rst` holds. */
    predicate PllReset()
      reads this, por
      requires Valid()
      ensures PllReset() <==> por.ticks < ResetValue
    {
      !por.Done()
    }
  }

  /** The `BaseSoC` arguments that decide what is added, and the
      `integrated_main_ram_size` that `SoCCore` settled on. */
  datatype Options = Options(
    integratedMainRamSize: nat,
    withLedChaser: bool,
    withRgbLed: bool,
    withButtons: bool)

  /** The defaults of `BaseSoC.__init__` for the switches, with no integrated
      main RAM. */
  const DefaultOptions := Options(0, true, false, true)

  /** Which optional parts `BaseSoC.__init__` instantiated, and the bus
      regions it leaves. */
  datatype Soc = Soc(sdram: bool, ledChaser: bool, rgbLed: bool, buttons: bool, regions: Regions)

  /** `BaseSoC.__init__` after `SoCCore` registered `coreRegions`;
      `sdramMainRam` is the "main_ram" region that `add_sdram` registers when
      called. `SoCCore` registers "main_ram" itself exactly when it has an
      integrated main RAM. */
  function BuildSoc(options: Options, coreRegions: Regions, sdramMainRam: Region): (soc: Soc)
    requires "main_ram" in coreRegions <==> options.integratedMainRamSize > 0
    ensures soc.sdram <==> options.integratedMainRamSize == 0
    ensures "main_ram" in soc.regions
    ensures ("main_ram" in coreRegions) != soc.sdram
    ensures soc.sdram ==> soc.regions["main_ram"] == sdramMainRam
    ensures !soc.sdram ==> soc.regions["main_ram"] == coreRegions["main_ram"]
    ensures soc.regions.Keys == coreRegions.Keys
              + (if soc.sdram then {"main_ram"} else {})
              + (if options.withRgbLed then {"rgb_led"} else {})
    ensures options.withRgbLed ==> soc.regions["rgb_led"] == Region(RgbLedOrigin, RgbLedSize, false)
    ensures forall name :: name in coreRegions && name != "rgb_led" ==> soc.regions[name] == coreRegions[name]
    ensures soc.ledChaser == options.withLedChaser && soc.buttons == options.withButtons
    ensures soc.rgbLed == options.withRgbLed
  {
    var sdram := options.integratedMainRamSize == 0;
    var withSdram := if sdram then AddRegion(coreRegions, "main_ram", sdramMainRam) else coreRegions;
    var regions :=
      if options.withRgbLed then AddRegion(withSdram, "rgb_led", Region(RgbLedOrigin, RgbLedSize, false))
      else withSdram;
    Soc(sdram, options.withLedChaser, options.withRgbLed, options.withButtons, regions)
  }

  /** With the default switches and no integrated main RAM, SDRAM provides
      "main_ram" and no RGB LED region is added. */
  lemma DefaultSoc(coreRegions: Regions, sdramMainRam: Region)
    requires "main_ram" !in coreRegions
    ensures var soc := BuildSoc(DefaultOptions, coreRegions, sdramMainRam);
            soc.sdram && soc.ledChaser && soc.buttons && !soc.rgbLed &&
            soc.regions == AddRegion(coreRegions, "main_ram", sdramMainRam)
  {
  }
}
