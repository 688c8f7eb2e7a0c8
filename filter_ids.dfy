/** Filter identifiers and gamma multipliers, the top-level constants that the
    session and the filter catalogue share. */
module FilterIds {

  /** No filter is baked into the video. Reserved: never offered for selection. */
  const NO_FILTER: int := 0
  const RED_FILTER: int := 1
  const GREEN_FILTER: int := 2
  const BLUE_FILTER: int := 3

  /** Gamma applied to the filter's own channel; the other channels keep "1". */
  const RED_FILTER_MULTIPLIER: string := "1.5"
  const GREEN_FILTER_MULTIPLIER: string := "1.5"
  const BLUE_FILTER_MULTIPLIER: string := "1.5"

  /** The three selectable filters. */
  predicate IsColorFilter(id: int) {
    id == RED_FILTER || id == GREEN_FILTER || id == BLUE_FILTER
  }
}
