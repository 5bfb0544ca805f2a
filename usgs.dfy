/** The USGS lidar stub (src/ml/lidar/usgs.ts): a tile record derived from
    the address alone. */
module Usgs {
  import opened JsStrings
  import Sentinel2

  datatype LidarTile = LidarTile(id: string, pointDensity: real)

  const IdPrefix: string := "lidar-"

  /** `fetchUsgsLidar`: id `lidar-` followed by the address with each run
      of whitespace replaced by one `-`; density 8 points per square metre. */
  function FetchUsgsLidar(address: string): (tile: LidarTile)
    ensures StartsWith(tile.id, IdPrefix) && tile.id[|IdPrefix|..] == DashWhitespaceRuns(address)
    ensures NoWhitespace(tile.id)
    ensures tile.pointDensity == 8.0
  {
    DashedHasNoWhitespace(address);
    LidarTile(IdPrefix + DashWhitespaceRuns(address), 8.0)
  }

  /** The lidar tile and the Sentinel-2 image of one address carry the
      same address key after their prefixes. */
  lemma SameKeyAsImagery(address: string)
    ensures FetchUsgsLidar(address).id[|IdPrefix|..] == Sentinel2.FetchSentinel2(address).id[|Sentinel2.IdPrefix|..]
  {
  }
}
