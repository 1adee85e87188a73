/** The two hand-written G-code line shapes that both the exporter and the
    stand-alone arc/circle helpers print with interpolated strings. */
module GCodeText {
  import opened Geometry

  /** $"G0 X{x:0.###} Y{y:0.###}". */
  function RapidLine(x: real, y: real, fmt: Formatter): string
  {
    "G0 X" + fmt.threeDecimals(x) + " Y" + fmt.threeDecimals(y)
  }

  /** $"{cmd} X{x:0.###} Y{y:0.###} I{i:0.###} J{j:0.###} F{f:0.#}". */
  function ArcLine(cmd: string, x: real, y: real, i: real, j: real, f: real,
                   fmt: Formatter): string
  {
    cmd + " X" + fmt.threeDecimals(x) + " Y" + fmt.threeDecimals(y)
    + " I" + fmt.threeDecimals(i) + " J" + fmt.threeDecimals(j)
    + " F" + fmt.oneDecimal(f)
  }
}
