/** The `Colors` enumeration of the first generation of trackers: eighteen
    named colours in declaration order. Only the cases and their order matter
    to the model; their RGB raw values and `uiColor` are presentation. */
module Palette {

  datatype Colors =
    | PinkEnergy | Orange | Blue | Purple | Green | SoftPurple
    | PinkCosmos | BlueSky | SeaBreeze | DarkBlue | Tomato | Pink
    | Peach | BlueViolet | Violet | PurpleViolet | PurpleMania | LimeGreen

  const AllColors: seq<Colors> := [
    PinkEnergy, Orange, Blue, Purple, Green, SoftPurple,
    PinkCosmos, BlueSky, SeaBreeze, DarkBlue, Tomato, Pink,
    Peach, BlueViolet, Violet, PurpleViolet, PurpleMania, LimeGreen
  ]
}
