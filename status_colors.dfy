/** The three text colour classes the management cards use for a good, middling
    or poor reading, and their order. */
module StatusColors {
  const Emerald: string := "text-emerald-600"
  const Yellow: string := "text-yellow-600"
  const Red: string := "text-red-600"

  /** The colours ordered from worst (red) to best (emerald). */
  function ColorRank(color: string): nat
  {
    if color == Emerald then 2 else if color == Yellow then 1 else 0
  }
}
