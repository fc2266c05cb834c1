/** The Sipeed Tang Primer 25K target: its clock/reset generator, where the
    PLL is held in reset by the POR counter or by `rst`, and the optional
    parts `BaseSoC` adds on top of `SoCCore`. */
module TangPrimer25k {
  import opened PowerOnReset
  import opened SocRegions

  /** `_CRG`: the POR counter is clocked straight from the 50 MHz
      oscillator and the PLL's reset is `~por_done | rst`. */
  class Crg {
    const por: PorCounter
    var rst: bool

    ghost predicate Valid()
      reads this, por
    {
      por.Valid()
    }

    constructor ()
      ensures Valid() && fresh(por) && por.ticks == 0 && !rst
    {
      por := new PorCounter();
      rst := false;
    }

    /** One tick of the `por` domain. */
    method Tick()
      requires Valid()
      modifies por
      ensures Valid() && por.ticks == old(por.ticks) + 1
      ensures por.count == Next(old(por.count))
    {
      por.Tick();
    }

    /** An external write to the `rst` signal. */
    method SetRst(value: bool)
      requires Valid()
      modifies this
      ensures Valid() && rst == value
    {
      rst := value;
    }

    /** `pll.reset`: asserted during the first 65535 ticks and whenever
        `rst` is; once the POR has completed it follows `rst` exactly. */
    predicate PllReset()
      reads this, por
      requires Valid()
      ensures PllReset() <==> (por.ticks < ResetValue || rst)
      ensures por.ticks >= ResetValue ==> (PllReset() <==> rst)
    {
      !por.Done() || rst
    }
  }

  /** The `BaseSoC` switches. */
  datatype Options = Options(withSpiFlash: bool, withLedChaser: bool, withButtons: bool)

  /** The defaults of `BaseSoC.__init__` (and of the `--with-spi-flash`
      switch). */
  const DefaultOptions := Options(false, true, true)

  /** What `BaseSoC.__init__` leaves behind: whether the LED chaser and the
      buttons were instantiated, and the bus regions. */
  datatype Soc = Soc(ledChaser: bool, buttons: bool, regions: Regions)

  /** `BaseSoC.__init__` after `SoCCore` registered `coreRegions`;
      `spiflash` is the region that `add_spi_flash` registers when called.
      The flash is mapped on the bus exactly when `with_spi_flash` is set;
      every other entry is SoCCore's. */
  function BuildSoc(options: Options, coreRegions: Regions, spiflash: Region): (soc: Soc)
    ensures options.withSpiFlash ==>
              soc.regions.Keys == coreRegions.Keys + {"spiflash"} && soc.regions["spiflash"] == spiflash
    ensures !options.withSpiFlash ==> soc.regions == coreRegions
    ensures "spiflash" !in coreRegions ==> ("spiflash" in soc.regions <==> options.withSpiFlash)
    ensures forall name :: name in coreRegions && name != "spiflash" ==>
              name in soc.regions && soc.regions[name] == coreRegions[name]
    ensures soc.ledChaser <==> options.withLedChaser
    ensures soc.buttons <==> options.withButtons
  {
    var regions := if options.withSpiFlash then AddRegion(coreRegions, "spiflash", spiflash) else coreRegions;
    Soc(options.withLedChaser, options.withButtons, regions)
  }

  /** By default no SPI flash is mapped: the bus holds SoCCore's regions
      only. */
  lemma DefaultSoc(coreRegions: Regions, spiflash: Region)
    ensures BuildSoc(DefaultOptions, coreRegions, spiflash).regions == coreRegions
  {
  }
}
