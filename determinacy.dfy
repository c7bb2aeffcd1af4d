/**
 * The contracts of the run-finding functions determine them: any position that
 * satisfies a function's postcondition is the position the function returns.
 * This is what lets a scan be transferred from one text to another.
 */
module Determinacy {
  import opened Chars
  import opened Scanning

  lemma {:induction false} IdentEndUnique(cc: CharClasses, s: string, i: nat, r: nat)
    requires i <= r <= |s|
    requires forall k | i <= k < r :: IsIdentChar(cc, s[k])
    requires r == |s| || !IsIdentChar(cc, s[r])
    ensures IdentEnd(cc, s, i) == r
    decreases r - i
  {
    if i < r {
      IdentEndUnique(cc, s, i + 1, r);
    }
  }

  /** Dropping the first `n` characters of a digit run leaves a digit run when a digit comes next. */
  lemma {:induction false} DigitGroupsTail(t: string, d: char -> bool, n: nat)
    requires n <= |t| && DigitGroups(t, d)
    ensures DigitGroups(t[n..], d)
  {
    forall k | 0 <= k < |t[n..]|
      ensures d(t[n..][k]) || (t[n..][k] == '_' && k + 1 < |t[n..]| && d(t[n..][k + 1]))
    {
      assert t[n..][k] == t[n + k];
      assert k + 1 < |t[n..]| ==> t[n..][k + 1] == t[n + k + 1];
    }
  }

  lemma {:induction false} GroupedEndUnique(s: string, i: nat, d: char -> bool, r: nat)
    requires i <= r <= |s|
    requires DigitGroups(s[i..r], d)
    requires GroupStop(s, r, d)
    ensures GroupedEnd(s, i, d) == r
    decreases r - i
  {
    if i < r {
      assert s[i..r][0] == s[i];
      if d(s[i]) {
        assert s[i..r][1..] == s[i + 1..r];
        DigitGroupsTail(s[i..r], d, 1);
        GroupedEndUnique(s, i + 1, d, r);
      } else {
        assert s[i..r][1] == s[i + 1];
        assert s[i..r][2..] == s[i + 2..r];
        DigitGroupsTail(s[i..r], d, 2);
        GroupedEndUnique(s, i + 2, d, r);
      }
    }
  }

  /**
   * When the fraction scan stops after consuming at least one digit, the next
   * character is neither a multiplier nor a `_` in front of a digit.
   */
  lemma {:induction false} PointDecimalEndExit(s: string, i: nat)
    requires i <= |s|
    ensures PointExitAt(s, i, PointDecimalEnd(s, i))
    decreases |s| - i
  {
    if VerifyPredicate(s, i, IsDigit) && VerifyPredicate(s, i + 1, IsMultiplier) {
    } else if VerifyPredicate(s, i, IsDigit) && Verify(s, i + 1, '_') && VerifyPredicate(s, i + 2, IsDigit) {
      PointDecimalEndExit(s, i + 2);
    } else if Verify(s, i, 'e') || Verify(s, i, 'E') {
    } else if VerifyPredicate(s, i, IsDigit) {
      PointDecimalEndExit(s, i + 1);
    }
  }

  /** Fraction digits from `i` are fraction digits from a later digit `j`. */
  lemma {:induction false} FractionDigitsFrom(s: string, i: nat, j: nat, m: nat)
    requires i <= j <= m <= |s| && FractionDigits(s, i, m)
    requires j < m ==> IsDigit(s[j])
    ensures FractionDigits(s, j, m)
  {
  }

  /** A `_` between two fraction digits is stepped over together with the digit after it. */
  lemma {:induction false} SkipSeparator(s: string, i: nat, x: PointExit)
    requires i + 1 < x.at <= |s| && s[i + 1] == '_'
    requires FractionDigits(s, i, x.at) && PointExitAt(s, i, x)
    ensures i + 2 < x.at
    ensures PointDecimalEnd(s, i) == PointDecimalEnd(s, i + 2)
    ensures FractionDigits(s, i + 2, x.at) && PointExitAt(s, i + 2, x)
  {
    var m := x.at;
    assert IsDigit(s[i]);
    assert i + 2 < m && IsDigit(s[i + 2]) by {
      assert IsDigit(s[i + 1]) || (s[i + 1] == '_' && i + 2 < m && IsDigit(s[i + 2]));
    }
    assert !VerifyPredicate(s, i + 1, IsMultiplier);
    FractionDigitsFrom(s, i, i + 2, m);
    if x.ToSi? {
      assert m - 1 != i + 1;
    }
  }

  lemma {:induction false} PointDecimalEndUnique(s: string, i: nat, x: PointExit)
    requires i <= x.at <= |s|
    requires FractionDigits(s, i, x.at)
    requires PointExitAt(s, i, x)
    ensures PointDecimalEnd(s, i) == x
    decreases x.at - i
  {
    var m := x.at;
    if i < m {
      assert IsDigit(s[i]);
      if i + 1 == m {
        if x.ToSi? {
          assert PointDecimalEnd(s, i) == ToSi(i + 1);
        } else {
          assert !VerifyPredicate(s, i + 1, IsMultiplier);
          assert !(Verify(s, i + 1, '_') && VerifyPredicate(s, i + 2, IsDigit));
          assert PointDecimalEnd(s, i) == PointDecimalEnd(s, i + 1);
          PointDecimalEndUnique(s, i + 1, x);
        }
      } else if s[i + 1] == '_' {
        SkipSeparator(s, i, x);
        PointDecimalEndUnique(s, i + 2, x);
      } else {
        assert IsDigit(s[i + 1]);
        assert PointDecimalEnd(s, i) == PointDecimalEnd(s, i + 1);
        FractionDigitsFrom(s, i, i + 1, m);
        PointDecimalEndUnique(s, i + 1, x);
      }
    }
  }
}
