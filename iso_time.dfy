/** Timestamps as the user controller compares them: ISO-8601 text ordered
    by JavaScript's `<` on strings, which is lexicographic by character. */
module IsoTime {

  /** JavaScript `a < b` on two strings. */
  predicate LexLess(a: string, b: string)
    decreases |a|
  {
    if |a| == 0 then |b| > 0
    else if |b| == 0 then false
    else if a[0] != b[0] then a[0] < b[0]
    else LexLess(a[1..], b[1..])
  }

  lemma {:induction false} LexLessIrreflexive(a: string)
    ensures !LexLess(a, a)
    decreases |a|
  {
    if |a| > 0 {
      LexLessIrreflexive(a[1..]);
    }
  }

  lemma {:induction false} LexLessTransitive(a: string, b: string, c: string)
    requires LexLess(a, b) && LexLess(b, c)
    ensures LexLess(a, c)
    decreases |a|
  {
    if |a| > 0 && a[0] == b[0] && b[0] == c[0] {
      LexLessTransitive(a[1..], b[1..], c[1..]);
    }
  }

  lemma {:induction false} LexLessTotal(a: string, b: string)
    requires a != b
    ensures LexLess(a, b) || LexLess(b, a)
    decreases |a|
  {
    if |a| > 0 && |b| > 0 && a[0] == b[0] {
      assert a == [a[0]] + a[1..] && b == [b[0]] + b[1..];
      LexLessTotal(a[1..], b[1..]);
    }
  }

  /** The textbook reading of string order: `a` is a proper prefix of `b`,
      or at the first position where they differ `a` has the smaller character. */
  predicate DiffersBelowAt(a: string, b: string, k: int)
  {
    0 <= k < |a| && k < |b| && a[..k] == b[..k] && a[k] < b[k]
  }

  lemma {:induction false} LexLessIsFirstDifference(a: string, b: string)
    ensures LexLess(a, b) <==> (|a| < |b| && a == b[..|a|]) || exists k :: DiffersBelowAt(a, b, k)
    decreases |a|
  {
    if |a| == 0 || |b| == 0 {
    } else if a[0] != b[0] {
      if |a| < |b| { assert b[..|a|][0] == b[0]; }
      if a[0] < b[0] { assert DiffersBelowAt(a, b, 0); }
    } else {
      var a', b' := a[1..], b[1..];
      LexLessIsFirstDifference(a', b');
      assert a == [a[0]] + a' && b == [b[0]] + b';
      assert (|a| < |b| && a == b[..|a|]) <==> (|a'| < |b'| && a' == b'[..|a'|]) by {
        if |a| < |b| { assert b[..|a|] == [b[0]] + b'[..|a'|]; }
      }
      forall k | DiffersBelowAt(a', b', k) ensures DiffersBelowAt(a, b, k + 1) {
        assert a[..k + 1] == [a[0]] + a'[..k] && b[..k + 1] == [b[0]] + b'[..k];
      }
      forall k | DiffersBelowAt(a, b, k) ensures DiffersBelowAt(a', b', k - 1) {
        assert k != 0;
        assert a'[..k - 1] == a[1..k] && b'[..k - 1] == b[1..k];
        assert a[1..k] == a[..k][1..] && b[1..k] == b[..k][1..];
      }
      if exists k :: DiffersBelowAt(a', b', k) {
        var k :| DiffersBelowAt(a', b', k);
        assert DiffersBelowAt(a, b, k + 1);
      }
      if exists k :: DiffersBelowAt(a, b, k) {
        var k :| DiffersBelowAt(a, b, k);
        assert DiffersBelowAt(a', b', k - 1);
      }
    }
  }

  /** An expiry that has not passed at `now` has not passed at any earlier
      time either: the check only ever turns from "valid" to "expired". */
  lemma {:induction false} ExpiryCheckMonotone(expiry: string, earlier: string, now: string)
    requires LexLess(earlier, now)
    requires !LexLess(expiry, now)
    ensures !LexLess(expiry, earlier)
  {
    if LexLess(expiry, earlier) {
      LexLessTransitive(expiry, earlier, now);
    }
  }

  /** A cleared expiry ("") is earlier than every non-empty time. */
  lemma ClearedExpiryIsPast(now: string)
    ensures LexLess("", now) <==> now != ""
  {
  }
}
