/** `assertNonEmpty` (util.ts): returns a truthy value or throws. Every caller
    passes an optional string, so the value is an `Option<string>`. */
module Util {
  import opened Base

  const Expected := "Expected non-empty value"

  /** The default of the `extra` parameter. */
  const DefaultExtra := ""

  /** The message thrown: `: <extra>` is appended only for a non-empty `extra`. */
  function ErrorMessage(extra: string): (m: string)
    ensures |Expected| <= |m| && m[..|Expected|] == Expected
    ensures m == Expected <==> extra == ""
    ensures extra != "" ==> m[|Expected|..] == ": " + extra
  {
    if extra != "" then Expected + ": " + extra else Expected
  }

  function AssertNonEmpty(x: Option<string>, extra: string): (r: Outcome<string>)
    ensures r.Ok? <==> Truthy(x)
    ensures r.Ok? ==> r.value == x.value
    ensures !r.Ok? ==> r == Err(Thrown(ErrorMessage(extra)))
  {
    if Truthy(x) then Ok(x.value) else Err(Thrown(ErrorMessage(extra)))
  }

  /** With the default `extra`, an undefined or empty value throws exactly
      "Expected non-empty value". */
  lemma DefaultMessage(x: Option<string>)
    requires !Truthy(x)
    ensures AssertNonEmpty(x, DefaultExtra) == Err(Thrown("Expected non-empty value"))
  {
  }
}
