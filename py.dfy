/** Python values the package passes around where a Dafny type needs spelling out:
    a value that may be `None`, `dict.get`, and the truthiness `if x:` tests. */
module PyValues {

  datatype Option<+T> = None | Some(value: T)

  /** `d.get(key)`: the value, or `None` when the key is absent. */
  function Get<K, V>(d: map<K, V>, key: K): (r: Option<V>)
    ensures r.Some? <==> key in d
    ensures r.Some? ==> r.value == d[key]
  {
    if key in d then Some(d[key]) else None
  }

  /** `bool(s)` for a string that may be `None`: neither `None` nor empty. */
  predicate Truthy(s: Option<string>) {
    s.Some? && s.value != ""
  }

  /** A loosely typed setting: unset (`None`), a Python `bool`, or a string read from
      the environment. */
  datatype Flag = Unset | Bool(b: bool) | Text(s: string) {
    /** `bool(x)`: a non-empty string counts as true whatever it says. */
    predicate IsTrue() {
      match this
      case Unset => false
      case Bool(b) => b
      case Text(s) => s != ""
    }
  }

  /** `"%s" % x` for a string that may be `None`. */
  function Show(s: Option<string>): string {
    if s.Some? then s.value else "None"
  }
}
