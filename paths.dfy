/**
 * POSIX paths as strings, with the two operations of Python's `pathlib`
 * the modelled code uses: `is_absolute()` and the `/` operator.
 */
module Paths {

  predicate IsAbsolute(p: string) {
    |p| > 0 && p[0] == '/'
  }

  /**
   * `Path(base) / part`: an absolute `part` replaces `base`, an empty one
   * adds nothing, anything else is appended after one separator.
   */
  function Join(base: string, part: string): string {
    if IsAbsolute(part) then part
    else if part == [] then base
    else base + "/" + part
  }
}
