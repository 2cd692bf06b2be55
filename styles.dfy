/** Tailwind class lists, reduced to what tells one apart from another:
    the colour family, whether a hover shade and a dark-mode shade are
    given, and whether the badge pulses (`animate-pulse`). */
module Styles {

  datatype Palette = Emerald | Rose | Amber | Slate | Blue

  datatype BadgeClass = BadgeClass(palette: Palette, hover: bool, dark: bool, pulse: bool)

  /** The icons a card can show beside its location. */
  datatype Icon = VideoIcon | MapPinIcon
}
