/** Calendar dates as the application stores them: `YYYY-MM-DD` strings,
    compared with JavaScript's string operators. */
module Dates {
  import opened Text

  type Date = string

  /** JavaScript's `a <= b` on strings: lexicographic order by character code,
      a proper prefix coming first. */
  predicate LexLe(a: string, b: string) {
    |a| == 0 || (|b| > 0 && (a[0] < b[0] || (a[0] == b[0] && LexLe(a[1..], b[1..]))))
  }

  lemma {:induction false} LexLeReflexive(a: string)
    ensures LexLe(a, a)
  {
    if |a| > 0 {
      LexLeReflexive(a[1..]);
    }
  }

  lemma {:induction false} LexLeAntisymmetric(a: string, b: string)
    requires LexLe(a, b) && LexLe(b, a)
    ensures a == b
  {
    if |a| > 0 && |b| > 0 {
      LexLeAntisymmetric(a[1..], b[1..]);
      assert a == [a[0]] + a[1..] && b == [b[0]] + b[1..];
    }
  }

  lemma {:induction false} LexLeTransitive(a: string, b: string, c: string)
    requires LexLe(a, b) && LexLe(b, c)
    ensures LexLe(a, c)
  {
    if |a| > 0 && |b| > 0 && |c| > 0 && a[0] == b[0] == c[0] {
      LexLeTransitive(a[1..], b[1..], c[1..]);
    }
  }

  lemma {:induction false} LexLeTotal(a: string, b: string)
    ensures LexLe(a, b) || LexLe(b, a)
  {
    if |a| > 0 && |b| > 0 && a[0] == b[0] {
      LexLeTotal(a[1..], b[1..]);
    }
  }

  /** Comparing two concatenations whose first parts have equal length decides
      on the first parts unless they are equal. */
  lemma {:induction false} LexLeConcat(p: string, q: string, p': string, q': string)
    requires |p| == |p'|
    ensures LexLe(p + q, p' + q') <==> if p == p' then LexLe(q, q') else LexLe(p, p')
  {
    if |p| == 0 {
      assert p + q == q && p' + q' == q';
    } else {
      assert (p + q)[0] == p[0] && (p' + q')[0] == p'[0];
      assert (p + q)[1..] == p[1..] + q && (p' + q')[1..] == p'[1..] + q';
      LexLeConcat(p[1..], q, p'[1..], q');
      assert p == [p[0]] + p[1..] && p' == [p'[0]] + p'[1..];
    }
  }

  /** On digit strings of one length, lexicographic order is numeric order. */
  lemma {:induction false} LexLeDigits(x: string, y: string)
    requires |x| == |y| && AllDigits(x) && AllDigits(y)
    ensures LexLe(x, y) <==> DigitsValue(x) <= DigitsValue(y)
    decreases |x|
  {
    if |x| == 0 {
    } else {
      var n := |x|;
      var x', y' := x[..n - 1], y[..n - 1];
      assert x == x' + [x[n - 1]] && y == y' + [y[n - 1]];
      LexLeConcat(x', [x[n - 1]], y', [y[n - 1]]);
      LexLeDigits(x', y');
      LexLeDigits(y', x');
      assert DigitsValue(x) == DigitsValue(x') * 10 + DigitOf(x[n - 1]);
      assert DigitsValue(y) == DigitsValue(y') * 10 + DigitOf(y[n - 1]);
      if x' != y' {
        LexLeTotal(x', y');
        if LexLe(x', y') && LexLe(y', x') {
          LexLeAntisymmetric(x', y');
        }
        if LexLe(x', y') {
          assert DigitsValue(x') + 1 <= DigitsValue(y');
          assert DigitsValue(x') * 10 + 10 <= DigitsValue(y') * 10;
        } else {
          assert DigitsValue(y') + 1 <= DigitsValue(x');
          assert DigitsValue(y') * 10 + 10 <= DigitsValue(x') * 10;
        }
      }
    }
  }

  /** A well-formed date `YYYY-MM-DD`: four, two and two decimal digits. */
  predicate WellFormedDate(s: string) {
    && |s| == 10 && s[4] == '-' && s[7] == '-'
    && AllDigits(s[..4]) && AllDigits(s[5..7]) && AllDigits(s[8..])
  }

  /** The number yyyymmdd a well-formed date spells. */
  function DateKey(s: string): nat
    requires WellFormedDate(s)
  {
    DigitsValue(s[..4] + s[5..7] + s[8..])
  }

  /** On well-formed dates, comparing the strings (app.js, filters and the
      profit-and-loss range) and comparing them as calendar numbers yyyymmdd
      (the order a sort through `new Date` uses) agree. */
  lemma LexOrderIsCalendarOrder(a: string, b: string)
    requires WellFormedDate(a) && WellFormedDate(b)
    ensures LexLe(a, b) <==> DateKey(a) <= DateKey(b)
  {
    var ya, ma, da := a[..4], a[5..7], a[8..];
    var yb, mb, db := b[..4], b[5..7], b[8..];
    assert a == ya + ("-" + (ma + ("-" + da)));
    assert b == yb + ("-" + (mb + ("-" + db)));
    assert ya + ma + da == ya + (ma + da) && yb + mb + db == yb + (mb + db);
    LexLeConcat(ya, "-" + (ma + ("-" + da)), yb, "-" + (mb + ("-" + db)));
    LexLeConcat("-", ma + ("-" + da), "-", mb + ("-" + db));
    LexLeConcat(ma, "-" + da, mb, "-" + db);
    LexLeConcat("-", da, "-", db);
    LexLeConcat(ya, ma + da, yb, mb + db);
    LexLeConcat(ma, da, mb, db);
    assert AllDigits(ya + ma + da) && AllDigits(yb + mb + db);
    LexLeDigits(ya + ma + da, yb + mb + db);
  }
}
