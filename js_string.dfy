/**
 * The few JavaScript string operations the pages rely on, over `string`
 * (`seq<char>`): truthiness, `startsWith`, `includes` and the segment that
 * `split('.')` yields first.
 */
module JsString {

  /** JavaScript truthiness of a string: only `""` is falsy, so a string of spaces is truthy. */
  predicate Truthy(s: string) {
    s != ""
  }

  /** `s.startsWith(prefix)`. */
  predicate StartsWith(s: string, prefix: string) {
    |prefix| <= |s| && s[..|prefix|] == prefix
  }

  /** `needle` sits in `s` at position `i`. */
  ghost predicate OccursAt(s: string, needle: string, i: int) {
    0 <= i && i + |needle| <= |s| && s[i..i + |needle|] == needle
  }

  /** `s.includes(needle)`: try each start position from the left. */
  predicate Includes(s: string, needle: string)
    decreases |s|
  {
    StartsWith(s, needle) || (s != "" && Includes(s[1..], needle))
  }

  /** `includes` holds exactly when the needle occurs somewhere in `s`. */
  lemma {:induction false} IncludesIffOccurs(s: string, needle: string)
    ensures Includes(s, needle) <==> exists i :: OccursAt(s, needle, i)
    decreases |s|
  {
    if Includes(s, needle) {
      if StartsWith(s, needle) {
        assert OccursAt(s, needle, 0);
      } else {
        IncludesIffOccurs(s[1..], needle);
        var j :| OccursAt(s[1..], needle, j);
        assert s[1..][j..j + |needle|] == s[j + 1..j + 1 + |needle|];
        assert OccursAt(s, needle, j + 1);
      }
    }
    if exists i :: OccursAt(s, needle, i) {
      var i :| OccursAt(s, needle, i);
      if i == 0 {
        assert StartsWith(s, needle);
      } else {
        assert s[1..][i - 1..i - 1 + |needle|] == s[i..i + |needle|];
        assert OccursAt(s[1..], needle, i - 1);
        IncludesIffOccurs(s[1..], needle);
      }
    }
  }

  /** Between strings of the same length, `includes` is equality. */
  lemma IncludesSameLength(s: string, needle: string)
    requires |s| == |needle|
    ensures Includes(s, needle) <==> s == needle
  {
    IncludesIffOccurs(s, needle);
    if Includes(s, needle) {
      var i :| OccursAt(s, needle, i);
      assert i == 0;
    } else {
      assert !OccursAt(s, needle, 0);
    }
  }

  /**
   * The text before the first `'.'` of `s` (all of `s` when it has none):
   * the first element of `s.split('.')`.
   */
  function UntilDot(s: string): (r: string)
    ensures |r| <= |s| && r == s[..|r|]
    ensures '.' !in r
    ensures |r| == |s| || s[|r|] == '.'
  {
    if s == "" || s[0] == '.' then "" else [s[0]] + UntilDot(s[1..])
  }
}
