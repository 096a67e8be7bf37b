/** Stored timestamps: `_ts` writes a UTC instant as ISO text, and SQL compares the texts. */
module Timestamps {
  import opened Calendar
  import opened Decimal

  /** Byte order of ASCII texts, as SQLite compares them. */
  predicate TextLess(a: string, b: string) {
    b != "" && (a == "" || a[0] < b[0] || (a[0] == b[0] && TextLess(a[1..], b[1..])))
  }

  /** A UTC instant the source can write: a year of at most four digits. */
  predicate Writable(dt: DateTime) {
    Valid(dt) && dt.year <= 9999
  }

  /** The fraction and offset that end an ISO text; a zero fraction is omitted. */
  function Tail(micro: nat): string {
    (if micro != 0 then "." + Padded(micro, 6) else "") + "+00:00"
  }

  function TimeText(dt: DateTime): string
    requires Valid(dt)
  {
    Padded(dt.hour, 2) + (":" + (Padded(dt.minute, 2) + (":" + (Padded(dt.second, 2) + Tail(dt.micro)))))
  }

  /** `_ts`: the ISO text of a UTC instant. */
  function Ts(dt: DateTime): string
    requires Writable(dt)
  {
    Padded(dt.year, 4) + ("-" + (Padded(dt.month, 2) + ("-" + (Padded(dt.day, 2) + ("T" + TimeText(dt))))))
  }

  predicate DateLess(a: DateTime, b: DateTime) {
    a.year < b.year || (a.year == b.year && (a.month < b.month || (a.month == b.month && a.day < b.day)))
  }

  predicate SameDate(a: DateTime, b: DateTime) {
    a.year == b.year && a.month == b.month && a.day == b.day
  }

  /** Lexicographic order of hour, minute, second and microsecond. */
  predicate TimeLess(a: DateTime, b: DateTime) {
    a.hour < b.hour || (a.hour == b.hour && (
    a.minute < b.minute || (a.minute == b.minute && (
    a.second < b.second || (a.second == b.second &&
    a.micro < b.micro)))))
  }

  lemma {:induction false} ConcatCompare(p: string, q: string, s: string, t: string)
    requires |p| == |q|
    ensures TextLess(p + s, q + t) <==> TextLess(p, q) || (p == q && TextLess(s, t))
    ensures p + s == q + t <==> p == q && s == t
  {
    if p == "" {
      assert p + s == s && q + t == t;
    } else {
      assert (p + s)[1..] == p[1..] + s && (q + t)[1..] == q[1..] + t;
      ConcatCompare(p[1..], q[1..], s, t);
      assert p == [p[0]] + p[1..] && q == [q[0]] + q[1..];
      if p + s == q + t {
        assert (p + s)[0] == p[0] && (q + t)[0] == q[0];
      }
    }
  }

  function Pow10(w: nat): nat {
    if w == 0 then 1 else 10 * Pow10(w - 1)
  }

  lemma {:induction false} PaddedCompare(m: nat, n: nat, w: nat)
    requires m < Pow10(w) && n < Pow10(w)
    ensures TextLess(Padded(m, w), Padded(n, w)) <==> m < n
    ensures Padded(m, w) == Padded(n, w) <==> m == n
  {
    if w > 0 {
      PaddedCompare(m / 10, n / 10, w - 1);
      var c, d := DigitOf(m % 10), DigitOf(n % 10);
      ConcatCompare(Padded(m / 10, w - 1), Padded(n / 10, w - 1), [c], [d]);
      assert TextLess([c], [d]) <==> m % 10 < n % 10;
      assert [c] == [d] <==> m % 10 == n % 10;
    }
  }

  /** A fixed-width field followed by a separator orders first by the field. */
  lemma FieldCompare(m: nat, n: nat, w: nat, sep: string, s: string, t: string)
    requires m < Pow10(w) && n < Pow10(w)
    ensures TextLess(Padded(m, w) + (sep + s), Padded(n, w) + (sep + t)) <==> m < n || (m == n && TextLess(s, t))
    ensures Padded(m, w) + (sep + s) == Padded(n, w) + (sep + t) <==> m == n && s == t
  {
    PaddedCompare(m, n, w);
    ConcatCompare(Padded(m, w), Padded(n, w), sep + s, sep + t);
    ConcatCompare(sep, sep, s, t);
    NotBelowItself(sep);
  }

  lemma {:induction false} NotBelowItself(s: string)
    ensures !TextLess(s, s)
  {
    if s != "" {
      NotBelowItself(s[1..]);
    }
  }

  /** Byte order is total, */
  lemma {:induction false} TextTrichotomy(a: string, b: string)
    ensures a == b || TextLess(a, b) || TextLess(b, a)
    ensures !(TextLess(a, b) && TextLess(b, a))
  {
    if a != "" && b != "" {
      TextTrichotomy(a[1..], b[1..]);
      assert a == [a[0]] + a[1..] && b == [b[0]] + b[1..];
    }
  }

  /** and transitive. */
  lemma {:induction false} TextLessTransitive(a: string, b: string, c: string)
    requires TextLess(a, b) && TextLess(b, c)
    ensures TextLess(a, c)
  {
    if a != "" {
      if a[0] == b[0] == c[0] {
        TextLessTransitive(a[1..], b[1..], c[1..]);
      }
    }
  }

  /** The omitted zero fraction sorts first, because '+' precedes '.'. */
  lemma TailCompare(m: nat, n: nat)
    requires m < 1_000_000 && n < 1_000_000
    ensures TextLess(Tail(m), Tail(n)) <==> m < n
    ensures Tail(m) == Tail(n) <==> m == n
  {
    var z := "+00:00";
    assert Pow10(6) == 1_000_000 by { assert Pow10(3) == 1000; }
    assert forall k: nat :: k != 0 ==> Tail(k) == "." + (Padded(k, 6) + z);
    if m != 0 && n != 0 {
      ConcatCompare(".", ".", Padded(m, 6) + z, Padded(n, 6) + z);
      ConcatCompare(Padded(m, 6), Padded(n, 6), z, z);
      PaddedCompare(m, n, 6);
      NotBelowItself(z);
      NotBelowItself(".");
    } else if m == 0 && n == 0 {
      NotBelowItself(z);
    } else {
      assert Tail(0)[0] == '+' && (m != 0 ==> Tail(m)[0] == '.') && (n != 0 ==> Tail(n)[0] == '.');
    }
  }

  lemma TimeTextCompare(a: DateTime, b: DateTime)
    requires Valid(a) && Valid(b)
    ensures TextLess(TimeText(a), TimeText(b)) <==> TimeLess(a, b)
    ensures TimeText(a) == TimeText(b) <==> !TimeLess(a, b) && !TimeLess(b, a)
  {
    assert Pow10(2) == 100;
    TailCompare(a.micro, b.micro);
    ConcatCompare(Padded(a.second, 2), Padded(b.second, 2), Tail(a.micro), Tail(b.micro));
    PaddedCompare(a.second, b.second, 2);
    var s5, t5 := Padded(a.second, 2) + Tail(a.micro), Padded(b.second, 2) + Tail(b.micro);
    FieldCompare(a.minute, b.minute, 2, ":", s5, t5);
    FieldCompare(a.hour, b.hour, 2, ":", Padded(a.minute, 2) + (":" + s5), Padded(b.minute, 2) + (":" + t5));
  }

  lemma TextCompare(a: DateTime, b: DateTime)
    requires Writable(a) && Writable(b)
    ensures TextLess(Ts(a), Ts(b)) <==> DateLess(a, b) || (SameDate(a, b) && TimeLess(a, b))
    ensures Ts(a) == Ts(b) <==> SameDate(a, b) && !TimeLess(a, b) && !TimeLess(b, a)
  {
    assert Pow10(2) == 100;
    assert Pow10(4) == 10_000;
    TimeTextCompare(a, b);
    var x, y := TimeText(a), TimeText(b);
    FieldCompare(a.day, b.day, 2, "T", x, y);
    var s2, t2 := Padded(a.day, 2) + ("T" + x), Padded(b.day, 2) + ("T" + y);
    FieldCompare(a.month, b.month, 2, "-", s2, t2);
    FieldCompare(a.year, b.year, 4, "-", Padded(a.month, 2) + ("-" + s2), Padded(b.month, 2) + ("-" + t2));
  }

  lemma DateOrderIsDayOrder(a: DateTime, b: DateTime)
    requires Valid(a) && Valid(b) && DateLess(a, b)
    ensures DayOf(a) < DayOf(b)
  {
    if MonthBefore(a.year, a.month, b.year, b.month) {
      EarlierMonthEarlierDay(a.year, a.month, a.day, b.year, b.month, b.day);
    }
  }

  lemma EarlierDayEarlierMicro(a: DateTime, b: DateTime)
    requires Valid(a) && Valid(b) && DayOf(a) < DayOf(b)
    ensures MicroStamp(a) < MicroStamp(b)
  {
  }

  /** Comparing stored texts byte by byte is comparing the instants, although the texts differ in length. */
  lemma TextOrderIsTimeOrder(a: DateTime, b: DateTime)
    requires Writable(a) && Writable(b)
    ensures TextLess(Ts(a), Ts(b)) <==> MicroStamp(a) < MicroStamp(b)
    ensures Ts(a) == Ts(b) <==> MicroStamp(a) == MicroStamp(b)
  {
    TextCompare(a, b);
    if DateLess(a, b) {
      DateOrderIsDayOrder(a, b);
      EarlierDayEarlierMicro(a, b);
    } else if DateLess(b, a) {
      DateOrderIsDayOrder(b, a);
      EarlierDayEarlierMicro(b, a);
    } else {
      TimeOrderIsMicroOrder(a, b);
    }
  }

  lemma TimeOrderIsMicroOrder(a: DateTime, b: DateTime)
    requires Valid(a) && Valid(b) && SameDate(a, b)
    ensures TimeLess(a, b) <==> MicroStamp(a) < MicroStamp(b)
  {
  }
}
