/**
 The functions the policy calls whose code belongs to other packages. They stay
 uninterpreted: every result about the policy holds for every `World`.
 */
module Platform {
  import opened Text

  datatype World = World(
    /** `unicode.ToLower`. */
    lower: char -> char,
    /** The shell parser and printer: the text of every simple command of a script, or a parse error. */
    shell: string -> Option<seq<string>>,
    /** `doublestar.Match(pattern, path)`, an error counting as no match. */
    doublestar: (string, string) -> bool,
    /** `os.Getwd`. */
    cwd: Option<string>
  ) {
    function Lower(s: string): string {
      ToLower(lower, s)
    }

    ghost predicate Valid() {
      && Folding(lower)
      && (cwd.Some? ==> cwd.value != [] && cwd.value[0] == '/')
    }
  }
}
