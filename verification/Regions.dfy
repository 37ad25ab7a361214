/** Radio regions and their channel plans. */
module Regions {
  import opened Wrappers

  /** A region of the protocol, by number. */
  datatype Region = Region(id: int)

  /** A region with the frequencies of its channels, and the transmit power that its limits and gain leave, if any. */
  datatype RegionParams = RegionParams(region: Region, frequencies: seq<nat>, power: Option<nat>)
}
