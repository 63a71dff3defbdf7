/** Small value helpers shared by the chat client and the support backend. */
module Common {

  /** A value that may be missing: JavaScript's null/undefined, Python's None or an absent key. */
  datatype Option<+T> = None | Some(value: T)

  /** Truthiness of an optional string, as both JavaScript and Python test it:
      a missing value and the empty string are false, every other string is true. */
  predicate Truthy(o: Option<string>)
  {
    o.Some? && o.value != ""
  }

  /** The string value of `a || b`: `a` unless it is empty. */
  function Or(a: string, b: string): (r: string)
    ensures a != "" ==> r == a
    ensures a == "" ==> r == b
    ensures r == "" <==> a == "" && b == ""
  {
    if a != "" then a else b
  }

  /** The string behind an optional string, "" when it is missing. */
  function OrEmpty(o: Option<string>): string
  {
    if o.Some? then o.value else ""
  }
}
