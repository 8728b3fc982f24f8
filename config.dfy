/** The compiled-in settings of src/dwm.c (lines 217-223). */
module Config {

  /** borderpx: border width of every client, in pixels. */
  const BorderPx: int := 10

  /** bh: height reserved for a bar (this variant draws none). */
  const BarHeight: int := 0

  /** mfact = 0.6, as a percentage. */
  const DefaultMfact: int := 60

  /** The bounds setmfact clamps to, 0.1 and 0.9, as percentages. */
  const MinMfact: int := 10
  const MaxMfact: int := 90
}
