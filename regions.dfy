/** The part of the SoC bus's region registry that the target scripts use:
    named regions with an origin, a size and a linker-only flag, recorded
    with `bus.add_slave` or `bus.add_region` and read back with
    `bus.regions[name]`. */
module SocRegions {

  datatype Option<T> = None | Some(value: T)

  /** A `SoCRegion`: `origin` and `size` in bytes; a `linker` region is only
      reserved for the linker and is not a bus slave of its own. */
  datatype Region = Region(origin: nat, size: nat, linker: bool)

  /** `bus.regions`, keyed by region name. */
  type Regions = map<string, Region>

  /** `bus.add_slave` / `bus.add_region` as the targets rely on them: the
      region is recorded under its name and every other entry is kept. */
  function AddRegion(regions: Regions, name: string, region: Region): (r: Regions)
    ensures r.Keys == regions.Keys + {name}
    ensures r[name] == region
    ensures forall other :: other in regions && other != name ==> r[other] == regions[other]
  {
    regions[name := region]
  }

  /** `bus.regions[name]`: a missing name is a lookup error (`None`). */
  function Lookup(regions: Regions, name: string): (r: Option<Region>)
    ensures r.Some? <==> name in regions
    ensures r.Some? ==> r.value == regions[name]
  {
    if name in regions then Some(regions[name]) else None
  }

  /** The byte just past a region. */
  function End(region: Region): nat
  {
    region.origin + region.size
  }
}
