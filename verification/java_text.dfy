/** The few pieces of java.lang.String behaviour the tag synthesizer relies on:
    nullable strings, how `String.format("%s")` and `+` render a null, and ASCII
    case folding for `equalsIgnoreCase` and `toLowerCase`. */
module JavaText {
  import opened Wrappers

  /** A Java `String` reference: `None` is `null`. */
  type JString = Option<string>

  /** How `"%s"` in `String.format` and string concatenation render a reference. */
  function Show(s: JString): string {
    match s
    case None => "null"
    case Some(v) => v
  }

  predicate IsUpper(c: char) {
    'A' <= c <= 'Z'
  }

  function UpperChar(c: char): char {
    if 'a' <= c <= 'z' then (c as int - 32) as char else c
  }

  function LowerChar(c: char): char {
    if 'A' <= c <= 'Z' then (c as int + 32) as char else c
  }

  /** `a.equalsIgnoreCase(b)` for two non-null strings, with ASCII case folding. */
  predicate EqualsIgnoreCase(a: string, b: string) {
    |a| == |b| && forall i :: 0 <= i < |a| ==> UpperChar(a[i]) == UpperChar(b[i])
  }

  /** No character of `s` is an upper-case letter. */
  predicate IsLowerCase(s: string) {
    forall i :: 0 <= i < |s| ==> !IsUpper(s[i])
  }

  /** `s.toLowerCase()`: the lower-case string that equals `s` ignoring case. */
  function ToLowerCase(s: string): (r: string)
    ensures IsLowerCase(r)
    ensures EqualsIgnoreCase(r, s)
  {
    if s == [] then [] else [LowerChar(s[0])] + ToLowerCase(s[1..])
  }

  /** Case folding loses nothing on lower-case strings: two lower-case strings that
      are equal ignoring case are equal, so `toLowerCase` has exactly one answer. */
  lemma LowerCaseUnique(a: string, b: string)
    requires IsLowerCase(a) && IsLowerCase(b)
    requires EqualsIgnoreCase(a, b)
    ensures a == b
  {
  }

  /** `name.toLowerCase()` is `lower` exactly when `lower` is a lower-case string
      equal to `name` ignoring case. */
  lemma ToLowerCaseIs(name: string, lower: string)
    requires IsLowerCase(lower) && EqualsIgnoreCase(name, lower)
    ensures ToLowerCase(name) == lower
  {
  }
}
