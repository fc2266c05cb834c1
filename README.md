# LiteX board targets: power-on reset and UPduino v3 memory map

This project models the small amount of logic in three LiteX-Boards target
scripts (UPduino v3, Sipeed Tang Nano 20K, Sipeed Tang Primer 25K):

- the **power-on-reset (POR) counter** that each script's clock/reset
  generator (`_CRG`) builds: a 16-bit register `por_count` that starts at
  2^16 - 1, decrements on each tick of the `por` clock domain while it is
  nonzero and then stays at zero, with `por_done = (por_count == 0)`.
  `~por_done` drives the sys-domain reset synchroniser on the UPduino, the
  PLL reset on the Tang Nano 20K and, or-ed with `rst`, the PLL reset on the
  Tang Primer 25K;
- the **UPduino v3 memory map and boot derivation**: integrated SRAM/ROM
  disabled, a 128 KiB SPRAM registered as "sram", a 32 KiB linker-only "rom"
  region at `spiflash.origin + bios_flash_offset`, the CPU reset address at
  that ROM origin, and the flash layout (BIOS at the same offset, gateware at
  0x10000);
- the **conditional parts** of the two Tang `BaseSoC`s: SDRAM only without
  integrated main RAM, the RGB LED region at 0x2000_0000 of size 4, the SPI
  flash only when asked for.

Files:

- `por.dfy` — module `PowerOnReset`: the register as a trace function
  (`Next`, `CountAfter`), its closed form and release boundary, and the class
  `PorCounter` (`count`, `Tick()`, `Done()`), shared by all three boards.
- `regions.dfy` — module `SocRegions`: `Region` and the name-keyed region
  registry (`AddRegion`, `Lookup`).
- `upduino_v3.dfy`, `sipeed_tang_nano_20k.dfy`, `sipeed_tang_primer_25k.dfy`
  — one module per target script: its `Crg` class (holding a `PorCounter`
  and the `rst` signal, with the reset output as a predicate of that state)
  and its `BaseSoC` as a function from options to the resulting SoC.

Hardware is modelled as state that changes once per clock tick: the counter
is a class field updated by `Tick()`; combinational signals (`por_done`, the
reset outputs) are predicates over that state. Each counter also carries a
ghost tick count, and its invariant ties `count` to `CountAfter(ticks)`, so
the reset outputs are stated directly in terms of elapsed ticks.

The three scripts make no duplicate-name, overlap, alignment or containment
check, no frequency check, and no SRAM/main-RAM split; LiteX's bus handler
does the validation. Registering a region is a map update here, and
`RomNotContainedInFlash` shows a ROM window reaching past the flash window.

## Model

| member | source | states |
|---|---|---|
| `PowerOnReset.Truncate` | litex_boards/targets/upduino_v3.py:37-41 | assigning to the 16-bit `por_count` keeps values in range unchanged and wraps -1 to 0xFFFF |
| `PowerOnReset.Next` | litex_boards/targets/upduino_v3.py:40-41 | one `por` tick: a nonzero count goes down by exactly one (no wrap despite the 16-bit subtraction), zero stays done |
| `PowerOnReset.CountAfterClosedForm` | litex_boards/targets/upduino_v3.py:37-41 | after n ticks from 0xFFFF the count is 0xFFFF - n while n < 65535 and 0 from then on: it never underflows |
| `PowerOnReset.ReleaseBoundary` | litex_boards/targets/sipeed_tang_nano_20k.py:41-45 | `por_done` holds after n ticks exactly when n >= 65535 |
| `PowerOnReset.ReleaseTick` | litex_boards/targets/upduino_v3.py:37-41 | `por_done` is still false after 65534 ticks and true after 65535 |
| `PowerOnReset.DoneIsTerminal` | litex_boards/targets/sipeed_tang_nano_20k.py:45 | once `por_done` holds, every later tick leaves the count at 0 |
| `PowerOnReset.PorCounter.constructor` | litex_boards/targets/sipeed_tang_primer_25k.py:35 | power-up value 2^16 - 1, zero ticks, not done |
| `PowerOnReset.PorCounter.Done` | litex_boards/targets/sipeed_tang_primer_25k.py:36-40 | `por_done` (`count == 0`) holds exactly when at least 65535 ticks have passed |
| `PowerOnReset.PorCounter.Tick` | litex_boards/targets/sipeed_tang_primer_25k.py:41 | the new count is `Next` of the old one, the invariant `count == CountAfter(ticks)` is kept, and a done counter stays at 0 |
| `SocRegions.AddRegion` | litex_boards/targets/upduino_v3.py:63 | registering a region makes it visible under its name and keeps every other entry |
| `SocRegions.Lookup` | litex_boards/targets/upduino_v3.py:72 | `bus.regions[name]` succeeds exactly for registered names and returns that entry |
| `UpduinoV3.Crg.constructor` | litex_boards/targets/upduino_v3.py:27-37 | a fresh POR counter at power-up and `rst` low |
| `UpduinoV3.Crg.Tick` | litex_boards/targets/upduino_v3.py:39-41 | a `por` tick (clocked by the sys clock) advances the counter by `Next` |
| `UpduinoV3.Crg.SetRst` | litex_boards/targets/upduino_v3.py:28 | `rst` takes the written value; nothing else changes |
| `UpduinoV3.Crg.SysResetRequest` | litex_boards/targets/upduino_v3.py:45 | the synchroniser's input `~por_done` is asserted exactly during the first 65535 ticks, independent of `rst` |
| `UpduinoV3.DisableIntegratedMemories` | litex_boards/targets/upduino_v3.py:57-58 | integrated SRAM and ROM sizes become 0 whatever the caller passed; main RAM size is passed through |
| `UpduinoV3.RomRegion` | litex_boards/targets/upduino_v3.py:71-75 | "rom" is at `spiflash.origin + bios_flash_offset`, 32 KiB, linker-only; it exists exactly when "spiflash" is registered |
| `UpduinoV3.BuildSoc` | litex_boards/targets/upduino_v3.py:49-76 | integrated SRAM/ROM 0; "sram" is 128 KiB and a real slave; "rom" is the 32 KiB linker window at flash origin + offset; reset address equals the "rom" origin; SoCCore's other regions are kept |
| `UpduinoV3.FlashWrites` | litex_boards/targets/upduino_v3.py:80-84 | exactly two writes, the BIOS first at `bios_flash_offset` and then the gateware at 0x10000 |
| `UpduinoV3.Main` | litex_boards/targets/upduino_v3.py:93-106 | one parsed offset feeds both the SoC and `flash`: the CPU reset address is the flash address of the BIOS image; without `--flash` nothing is written |
| `UpduinoV3.DefaultLayout` | litex_boards/targets/upduino_v3.py:80-93 | with the default offset 0x20000 the reset address is flash origin + 0x20000, and the BIOS and gateware images are disjoint exactly when the gateware is at most 64 KiB long |
| `UpduinoV3.RomNotContainedInFlash` | litex_boards/targets/upduino_v3.py:71-75 | no containment check: a 4 MiB flash with offset 0x3FF000 builds a "rom" ending past the flash window |
| `TangNano20k.Crg.constructor` | litex_boards/targets/sipeed_tang_nano_20k.py:32-42 | a fresh POR counter at power-up and `rst` low |
| `TangNano20k.Crg.Tick` | litex_boards/targets/sipeed_tang_nano_20k.py:43-45 | a `por` tick (clocked by the 27 MHz oscillator) advances the counter by `Next` |
| `TangNano20k.Crg.SetRst` | litex_boards/targets/sipeed_tang_nano_20k.py:33 | `rst` takes the written value; nothing else changes |
| `TangNano20k.Crg.PllReset` | litex_boards/targets/sipeed_tang_nano_20k.py:49 | the PLL reset is asserted exactly during the first 65535 ticks; `rst` plays no part |
| `TangNano20k.BuildSoc` | litex_boards/targets/sipeed_tang_nano_20k.py:55-118 | SDRAM exactly when integrated main RAM size is 0; "main_ram" is always mapped and claimed once, by SoCCore or by `add_sdram`; with the RGB LED, region "rgb_led" at 0x2000_0000 of size 4; no other region added and SoCCore's entries kept; LED chaser and buttons follow their switches |
| `TangNano20k.DefaultSoc` | litex_boards/targets/sipeed_tang_nano_20k.py:56-60 | with the default switches and no integrated main RAM: SDRAM provides "main_ram", LED chaser and buttons, no RGB LED region |
| `TangPrimer25k.Crg.constructor` | litex_boards/targets/sipeed_tang_primer_25k.py:24-36 | a fresh POR counter at power-up and `rst` low |
| `TangPrimer25k.Crg.Tick` | litex_boards/targets/sipeed_tang_primer_25k.py:37-41 | a `por` tick (clocked by the 50 MHz oscillator) advances the counter by `Next` |
| `TangPrimer25k.Crg.SetRst` | litex_boards/targets/sipeed_tang_primer_25k.py:25 | `rst` takes the written value; nothing else changes |
| `TangPrimer25k.Crg.PllReset` | litex_boards/targets/sipeed_tang_primer_25k.py:45 | the PLL reset is asserted exactly when fewer than 65535 ticks have passed or `rst` is high; after POR it follows `rst` exactly |
| `TangPrimer25k.BuildSoc` | litex_boards/targets/sipeed_tang_primer_25k.py:51-81 | the "spiflash" region is mapped exactly when `with_spi_flash` is set, every other entry is SoCCore's; LED chaser and buttons follow their switches |
| `TangPrimer25k.DefaultSoc` | litex_boards/targets/sipeed_tang_primer_25k.py:53 | by default no SPI flash is mapped: the bus holds SoCCore's regions only |

## Left out

- Pin, connector and IO-standard tables and vendor constraint commands of the platform files: static data with no behaviour.
- `AsyncResetSynchronizer` and the two-clock-domain, metastability-related behaviour: only its input `~por_done` is modelled (`UpduinoV3.Crg.SysResetRequest`); when the synchronised reset is released relative to the sys clock edge is not captured.
- PLL internals (`GW2APLL`, `GW5APLL`), clock frequencies (`sys_clk_freq`, the 12 MHz period constraint) and `cd_sys`'s clock wiring: library code and floating-point values.
- Validation done by LiteX's bus handler on `add_slave`/`add_region` (duplicate names, overlap, alignment, containment) and its allocation of origins: not in the scripts; the origin given to "sram" and the regions registered by `add_spi_flash` and `add_sdram` are inputs.
- `SoCCore` itself, the SDRAM PHY and module, `LedChaser`, `WS2812`, `GPIOIn` and the SPI-flash cores: library instantiation; only the conditions under which the scripts add them, and the regions they register ("main_ram", "spiflash", taken as inputs), are modelled.
- Argument parsing (including `int(..., 0)` of the offset string), `Builder`, the programmers, `load_bitstream`, the lengths of the flashed images, and the Tang boards' `--flash`/SD-card options: CLI and I/O plumbing; `bios_flash_offset` is taken as an already-parsed natural number.
- Addresses are unbounded naturals: the bus's 32-bit address width is not modelled, so a ROM origin beyond 4 GiB is not flagged.
- TangNano20k.BuildSoc: relies on `SoCCore` registering "main_ram" exactly when it has an integrated main RAM (its `requires`), since `SoCCore` is not part of this model.
