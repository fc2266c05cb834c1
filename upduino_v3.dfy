/** The UPduino v3 target: its clock/reset generator, the memory map it sets
    up on top of `SoCCore` (SPRAM as "sram", a ROM window inside the SPI
    flash, the CPU reset address) and the flash layout used to program it. */
module UpduinoV3 {
  import opened PowerOnReset
  import opened SocRegions

  const KiB: nat := 1024

  /** Size of the UP5K SPRAM block wired as "sram". */
  const SpramSize: nat := 128 * KiB

  /** Size of the linker-only "rom" window. */
  const RomSize: nat := 32 * KiB

  /** Where the gateware image is written in the SPI flash. */
  const GatewareFlashOffset: nat := 0x10000

  /** Default of `--bios-flash-offset` ("0x20000", already parsed). */
  const DefaultBiosFlashOffset: nat := 0x20000

  /** `_CRG`: the POR counter is clocked by the sys clock (the 12 MHz
      oscillator), and `~por_done` is the input of the sys domain's reset
      synchroniser. `rst` is declared but never wired. */
  class Crg {
    const por: PorCounter
    var rst: bool

    ghost predicate Valid()
      reads this, por
    {
      por.Valid()
    }

    constructor ()
      ensures Valid() && fresh(por) && por.ticks == 0 && !rst
    {
      por := new PorCounter();
      rst := false;
    }

    /** One tick of the `por` domain. */
    method Tick()
      requires Valid()
      modifies por
      ensures Valid() && por.ticks == old(por.ticks) + 1
      ensures por.count == Next(old(por.count))
    {
      por.Tick();
    }

    /** An external write to the `rst` signal. */
    method SetRst(value: bool)
      requires Valid()
      modifies this
      ensures Valid() && rst == value
    {
      rst := value;
    }

    /** The request fed to `AsyncResetSynchronizer(cd_sys, ~por_done)`:
        asserted from power-up until 65535 ticks have passed, whatever `rst`
        holds. */
    predicate SysResetRequest()
      reads this, por
      requires Valid()
      ensures SysResetRequest() <==> por.ticks < ResetValue
    {
      !por.Done()
    }
  }

  /** The `SoCCore` keyword arguments this target touches. */
  datatype CoreOptions = CoreOptions(integratedSramSize: nat, integratedRomSize: nat, integratedMainRamSize: nat)

  /** Integrated SRAM and ROM are disabled whatever the caller passed; the
      other arguments go through unchanged. */
  function DisableIntegratedMemories(kwargs: CoreOptions): (r: CoreOptions)
    ensures r.integratedSramSize == 0 && r.integratedRomSize == 0
    ensures r.integratedMainRamSize == kwargs.integratedMainRamSize
  {
    kwargs.(integratedSramSize := 0, integratedRomSize := 0)
  }

  /** The placements the bus handler and the SPI-flash core choose, which
      the target reads back: the origin allocated to "sram" (added without
      one) and the "spiflash" region that `add_spi_flash` registers. */
  datatype BusAllocation = BusAllocation(sramOrigin: nat, spiflash: Region)

  /** The "rom" linker region derived from the "spiflash" region; a missing
      "spiflash" entry is a lookup error. No bounds check is made against
      the size of the flash window. */
  function RomRegion(regions: Regions, biosFlashOffset: nat): (r: Option<Region>)
    ensures r.Some? <==> "spiflash" in regions
    ensures r.Some? ==> r.value.origin == regions["spiflash"].origin + biosFlashOffset
    ensures r.Some? ==> r.value.size == RomSize && r.value.linker
  {
    match Lookup(regions, "spiflash")
    case None => None
    case Some(flash) => Some(Region(flash.origin + biosFlashOffset, RomSize, true))
  }

  /** What `BaseSoC.__init__` leaves behind: the `SoCCore` options, the bus
      regions and the CPU reset address. */
  datatype Soc = Soc(options: CoreOptions, regions: Regions, resetAddress: nat)

  /** `BaseSoC.__init__`, from the regions `SoCCore` registered and the
      placements the library chose. */
  function BuildSoc(biosFlashOffset: nat, kwargs: CoreOptions, coreRegions: Regions, alloc: BusAllocation): (soc: Soc)
    ensures soc.options.integratedSramSize == 0 && soc.options.integratedRomSize == 0
    ensures soc.regions.Keys == coreRegions.Keys + {"sram", "spiflash", "rom"}
    ensures soc.regions["sram"] == Region(alloc.sramOrigin, SpramSize, false)
    ensures soc.regions["spiflash"] == alloc.spiflash
    ensures soc.regions["rom"] == Region(alloc.spiflash.origin + biosFlashOffset, RomSize, true)
    ensures soc.resetAddress == soc.regions["rom"].origin
    ensures forall name :: name in coreRegions && name !in {"sram", "spiflash", "rom"} ==>
              soc.regions[name] == coreRegions[name]
  {
    var options := DisableIntegratedMemories(kwargs);
    var withSram := AddRegion(coreRegions, "sram", Region(alloc.sramOrigin, SpramSize, false));
    var withFlash := AddRegion(withSram, "spiflash", alloc.spiflash);
    var rom := RomRegion(withFlash, biosFlashOffset).value;
    var regions := AddRegion(withFlash, "rom", rom);
    Soc(options, regions, regions["rom"].origin)
  }

  /** The two images written by `flash`. */
  datatype Image = Bios | Gateware

  /** One `prog.flash(offset, image)` call. */
  datatype FlashWrite = FlashWrite(offset: nat, image: Image)

  /** `flash`: the BIOS at `bios_flash_offset`, then the gateware at its
      fixed offset. */
  function FlashWrites(biosFlashOffset: nat): (r: seq<FlashWrite>)
    ensures forall w :: w in r && w.image == Bios ==> w.offset == biosFlashOffset
    ensures forall w :: w in r && w.image == Gateware ==> w.offset == GatewareFlashOffset
    ensures FlashWrite(biosFlashOffset, Bios) in r && FlashWrite(GatewareFlashOffset, Gateware) in r
    ensures |r| == 2 && r[0].image == Bios && r[1].image == Gateware
  {
    [FlashWrite(biosFlashOffset, Bios), FlashWrite(GatewareFlashOffset, Gateware)]
  }

  /** The command line after parsing: `--bios-flash-offset` as a number and
      the `--flash` switch. */
  datatype Args = Args(biosFlashOffset: nat, flash: bool)

  /** One run of `main`: the SoC it builds and the flash writes it issues. */
  datatype Run = Run(soc: Soc, writes: seq<FlashWrite>)

  /** The CPU starts at the flash address where the BIOS image was written. */
  ghost predicate BootsFromBios(run: Run, flashOrigin: nat)
  {
    forall w :: w in run.writes && w.image == Bios ==> flashOrigin + w.offset == run.soc.resetAddress
  }

  /** `main`: the same parsed offset goes to `BaseSoC` and to `flash`. */
  function Main(args: Args, kwargs: CoreOptions, coreRegions: Regions, alloc: BusAllocation): (r: Run)
    ensures BootsFromBios(r, alloc.spiflash.origin)
    ensures r.soc.resetAddress == alloc.spiflash.origin + args.biosFlashOffset
    ensures args.flash ==> FlashWrite(args.biosFlashOffset, Bios) in r.writes
    ensures args.flash ==> FlashWrite(GatewareFlashOffset, Gateware) in r.writes
    ensures !args.flash ==> r.writes == []
  {
    var soc := BuildSoc(args.biosFlashOffset, kwargs, coreRegions, alloc);
    Run(soc, if args.flash then FlashWrites(args.biosFlashOffset) else [])
  }

  /** Whether a BIOS image of `biosLen` bytes at `biosFlashOffset` and a
      gateware image of `gatewareLen` bytes at its fixed offset occupy
      disjoint byte ranges of the flash. `flash` writes the gateware second,
      so where they overlap the gateware overwrites the BIOS. */
  predicate ImagesDisjoint(biosFlashOffset: nat, biosLen: nat, gatewareLen: nat)
  {
    biosFlashOffset + biosLen <= GatewareFlashOffset || GatewareFlashOffset + gatewareLen <= biosFlashOffset
  }

  /** With the default offset the CPU boots 0x20000 bytes into the flash
      window, and the BIOS survives the gateware write exactly when the
      gateware image fits in the 64 KiB between the two offsets. */
  lemma DefaultLayout(kwargs: CoreOptions, coreRegions: Regions, alloc: BusAllocation, biosLen: nat, gatewareLen: nat)
    requires biosLen > 0
    ensures Main(Args(DefaultBiosFlashOffset, true), kwargs, coreRegions, alloc).soc.resetAddress
            == alloc.spiflash.origin + 0x20000
    ensures ImagesDisjoint(DefaultBiosFlashOffset, biosLen, gatewareLen) <==> gatewareLen <= 0x10000
  {
  }

  /** The ROM window is not checked against the flash window: a 4 MiB flash
      with the BIOS offset 4 KiB before its end still builds, with "rom"
      reaching past the end of "spiflash". */
  lemma RomNotContainedInFlash()
    ensures var soc := BuildSoc(0x3F_F000, CoreOptions(0, 0, 0), map[], BusAllocation(0, Region(0, 0x40_0000, false)));
            End(soc.regions["rom"]) > End(soc.regions["spiflash"])
  {
  }
}
