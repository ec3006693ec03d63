/** What several modules share: absent values, the unit of time, and the lower-casing
    of Twitch logins. */
module Basics {

  /** A value that may be absent: an optional column, or a missing map entry. */
  datatype Option<+T> = None | Some(value: T)

  /** Times and durations are counted in nanoseconds. */
  const SECOND: int := 1_000_000_000

  /** Lower-casing, for the ASCII letters a login consists of. */
  function ToLower(s: string): string {
    seq(|s|, i requires 0 <= i < |s| => if 'A' <= s[i] <= 'Z' then s[i] - 'A' + 'a' else s[i])
  }

  predicate SameButCase(a: char, b: char) {
    || a == b
    || ('A' <= a <= 'Z' && b as int == a as int + 32)
    || ('A' <= b <= 'Z' && a as int == b as int + 32)
  }

  /** Two logins get one key exactly if they differ in nothing but ASCII case. */
  lemma SameLogin(a: string, b: string)
    ensures ToLower(a) == ToLower(b) <==> |a| == |b| && forall i :: 0 <= i < |a| ==> SameButCase(a[i], b[i])
  {
    var x, y := ToLower(a), ToLower(b);
    if |a| == |b| && forall i :: 0 <= i < |a| ==> SameButCase(a[i], b[i]) {
      assert forall i :: 0 <= i < |a| ==> SameButCase(a[i], b[i]) && x[i] == y[i];
    } else if |a| == |b| {
      var i :| 0 <= i < |a| && !SameButCase(a[i], b[i]);
      assert x[i] != y[i];
    } else {
      assert |x| == |a| && |y| == |b|;
    }
  }

  /** A login without capitals is its own key, and every key is one. */
  lemma LowerIsFixed(s: string)
    ensures (forall i :: 0 <= i < |s| ==> !('A' <= s[i] <= 'Z')) <==> ToLower(s) == s
    ensures ToLower(ToLower(s)) == ToLower(s)
  {
    assert forall i :: 0 <= i < |s| ==> !('A' <= ToLower(s)[i] <= 'Z');
    assert ToLower(s) == s ==> forall i :: 0 <= i < |s| ==> ToLower(s)[i] == s[i];
  }
}
