/**
 * What the exporters share: `os.path.join` of two parts on a POSIX system,
 * the default file name built from a timestamp, and the text `csv.writer`
 * writes for a cell value.
 */
module Files {
  import opened Values

  /** `os.path.join(dir, name)`: an absolute `name` wins; otherwise exactly one '/' separates them. */
  function PathJoin(dir: string, name: string): (r: string)
    ensures |name| <= |r| && r[|r| - |name|..] == name
    ensures |name| > 0 && name[0] == '/' ==> r == name
    ensures (|name| == 0 || name[0] != '/') ==> |r| >= |dir| && r[..|dir|] == dir
  {
    if |name| > 0 && name[0] == '/' then name
    else if dir == [] || dir[|dir| - 1] == '/' then dir + name
    else dir + "/" + name
  }

  /** `filename`, or `{prefix}{timestamp}{ext}` when it is None or empty. */
  function FileName(filename: Option<string>, prefix: string, timestamp: string, ext: string): string {
    if filename.None? || filename.value == "" then prefix + timestamp + ext else filename.value
  }

  /** The text csv writes for a value: None as an empty field, anything else as `str()`. */
  function Cell(v: Value): string {
    if v.VNone? then "" else Show(v)
  }
}
