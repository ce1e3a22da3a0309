/**
 * The few pieces of PHP semantics the jobs rely on: truthiness of nullable
 * strings, string interpolation of null, `tryFrom` on a backed enum, and a
 * way to say that a message embeds a given piece of text.
 */
module Php {
  import opened Wrappers

  /**
   * `!$x` and `empty($x)` on a nullable string: null, "" and "0" are all
   * falsy in PHP.
   */
  predicate Falsy(s: Option<string>) {
    s.None? || s.value == "" || s.value == "0"
  }

  /** `"{$x}"` for a nullable string: null interpolates as the empty string. */
  function Interpolate(s: Option<string>): string {
    s.GetOr("")
  }

  /**
   * `Enum::tryFrom($s)` on a backed enum whose cases, in declaration order,
   * are `cases` and whose backing values are given by `value`: the first case
   * backed by `s`, or null when no case is.
   */
  function TryFrom<T>(cases: seq<T>, value: T -> string, s: string): (r: Option<T>)
    ensures r.Some? ==> r.value in cases && value(r.value) == s
    ensures r.None? ==> forall c :: c in cases ==> value(c) != s
  {
    if cases == [] then None
    else if value(cases[0]) == s then Some(cases[0])
    else TryFrom(cases[1..], value, s)
  }

  /** A PHP class name: namespace separators and identifier characters, never a space or a backtick. */
  predicate ClassName(s: string) {
    forall i :: 0 <= i < |s| ==> s[i] != ' ' && s[i] != '`'
  }

  /** `part` occurs in `s` starting at index `k`. */
  predicate OccursAt(s: string, part: string, k: nat) {
    k + |part| <= |s| && s[k..k + |part|] == part
  }

  /** `s` contains `part` somewhere: what a test's `expectExceptionMessage` checks. */
  ghost predicate Embeds(s: string, part: string) {
    exists k: nat :: OccursAt(s, part, k)
  }

  lemma EmbedsMiddle(prefix: string, part: string, suffix: string)
    ensures Embeds(prefix + part + suffix, part)
  {
    assert OccursAt(prefix + part + suffix, part, |prefix|);
  }

  lemma EmbedsEnd(prefix: string, part: string)
    ensures Embeds(prefix + part, part)
  {
    assert OccursAt(prefix + part, part, |prefix|);
  }
}
