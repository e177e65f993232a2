/**
 * The few Python string operations the validator relies on, stated over
 * `string` (a sequence of characters): substring test (`p in s`), the index of
 * the first occurrence (`s.find(p)`), `s.endswith(p)` and `s.partition(p)`,
 * together with Python truthiness of an optional string.
 */
module PyStr {
  import opened Wrappers

  /** `p` occurs in `s` starting at index `i`. */
  predicate OccursAt(s: string, p: string, i: int) {
    0 <= i && i + |p| <= |s| && s[i..i + |p|] == p
  }

  /** `p` is a substring of `s`. */
  ghost predicate Contains(s: string, p: string) {
    exists i :: OccursAt(s, p, i)
  }

  /** Python truthiness of an `Optional[str]`: both `None` and `""` are falsy. */
  predicate Truthy(s: Option<string>) {
    s.Some? && s.value != ""
  }

  /** Index of the first occurrence of `p` in `s` at or after `i`, or -1. */
  function FindFrom(s: string, p: string, i: nat): (r: int)
    decreases |s| - i
    ensures r == -1 || (i <= r && OccursAt(s, p, r))
    ensures forall j :: i <= j && (r == -1 || j < r) ==> !OccursAt(s, p, j)
  {
    if i + |p| > |s| then -1
    else if s[i..i + |p|] == p then i
    else
      assert |p| > 0;
      FindFrom(s, p, i + 1)
  }

  /** `s.find(p)`: the index of the first occurrence of `p` in `s`, or -1 when there is none. */
  function Find(s: string, p: string): (r: int)
    ensures r == -1 <==> !Contains(s, p)
    ensures r >= 0 ==> OccursAt(s, p, r) && forall j :: 0 <= j < r ==> !OccursAt(s, p, j)
    ensures -1 <= r
  {
    FindFrom(s, p, 0)
  }

  /** `p in s`. */
  function In(p: string, s: string): (b: bool)
    ensures b <==> Contains(s, p)
  {
    Find(s, p) >= 0
  }

  /** `s.endswith(suffix)`. */
  function EndsWith(s: string, suffix: string): (b: bool)
    ensures b <==> OccursAt(s, suffix, |s| - |suffix|)
  {
    |suffix| <= |s| && s[|s| - |suffix|..] == suffix
  }

  /**
   * `s.partition(sep)`: the text before the first occurrence of `sep`, `sep`
   * itself and the text after it; `(s, "", "")` when `sep` does not occur.
   * Python rejects an empty separator.
   */
  function Partition(s: string, sep: string): (r: (string, string, string))
    requires sep != ""
    ensures r.0 + r.1 + r.2 == s
    ensures r.1 == sep <==> Contains(s, sep)
    ensures r.1 != sep ==> r.0 == s && r.1 == "" && r.2 == ""
    ensures r.1 == sep ==> forall j :: 0 <= j < |r.0| ==> !OccursAt(s, sep, j)
  {
    var i := Find(s, sep);
    if i < 0 then (s, "", "")
    else
      assert s[..i] + sep + s[i + |sep|..] == s by {
        assert s == s[..i] + s[i..i + |sep|] + s[i + |sep|..];
      }
      (s[..i], sep, s[i + |sep|..])
  }
}
