/** The process environment as the script reads it. */
module Environ {

  /** One environment variable: unset, or set to a string (possibly empty). */
  datatype Variable = Unset | Set(value: string) {

    /** `os.environ.get(name, default)`: the value if the variable is set, else `default`. */
    function Get(default: string): string {
      if Set? then value else default
    }
  }
}
