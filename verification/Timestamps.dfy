/** Stored timestamps are compared as text. A stamp is what isoformat prints for a UTC time: the
    fraction is left out when it is zero. */
module Timestamps {

  datatype Time = Time(year: nat, month: nat, day: nat, hour: nat, minute: nat, second: nat, micro: nat)

  predicate Valid(t: Time) {
    && 1 <= t.year <= 9999 && 1 <= t.month <= 12 && 1 <= t.day <= 31
    && t.hour < 24 && t.minute < 60 && t.second < 60 && t.micro < 1000000
  }

  function Fields(t: Time): seq<nat> {
    [t.year, t.month, t.day, t.hour, t.minute, t.second, t.micro]
  }

  /** Earlier in time: the first field that differs decides. */
  ghost predicate Earlier(a: Time, b: Time) {
    exists i: nat :: FirstDifference(a, b, i) && Fields(a)[i] < Fields(b)[i]
  }

  predicate FirstDifference(a: Time, b: Time, i: nat) {
    i < 7 && Fields(a)[..i] == Fields(b)[..i] && Fields(a)[i] != Fields(b)[i]
  }

  // ---- Text --------------------------------------------------------------

  function Digit(n: nat): char
    requires n < 10
  {
    '0' + n as char
  }

  /** n in exactly w decimal digits. */
  function Padded(n: nat, w: nat): (s: string)
    ensures |s| == w
  {
    if w == 0 then "" else Padded(n / 10, w - 1) + [Digit(n % 10)]
  }

  function IsoFormat(t: Time): string {
    Head(t) + Tail(t.micro)
  }

  function Head(t: Time): (s: string)
    ensures |s| == 19
  {
    Date(t) + "T" + Clock(t)
  }

  function Date(t: Time): (s: string)
    ensures |s| == 10
  {
    Padded(t.year, 4) + "-" + Padded(t.month, 2) + "-" + Padded(t.day, 2)
  }

  function Clock(t: Time): (s: string)
    ensures |s| == 8
  {
    Padded(t.hour, 2) + ":" + Padded(t.minute, 2) + ":" + Padded(t.second, 2)
  }

  function Tail(micro: nat): string {
    (if micro == 0 then "" else "." + Padded(micro, 6)) + "+00:00"
  }

  /** The order of a binary text comparison. */
  predicate TextBefore(a: string, b: string) {
    if b == "" then false
    else if a == "" then true
    else a[0] < b[0] || (a[0] == b[0] && TextBefore(a[1..], b[1..]))
  }

  predicate TextAtMost(a: string, b: string) { !TextBefore(b, a) }

  lemma {:induction false} TextAfterPrefix(p: string, a: string, b: string)
    ensures TextBefore(p + a, p + b) == TextBefore(a, b)
  {
    if p == "" {
      assert p + a == a && p + b == b;
    } else {
      assert (p + a)[1..] == p[1..] + a && (p + b)[1..] == p[1..] + b;
      TextAfterPrefix(p[1..], a, b);
    }
  }

  /** Of texts of one length that differ, what follows them does not matter. */
  lemma {:induction false} TextDecided(a: string, b: string, x: string, y: string)
    requires |a| == |b| && a != b
    ensures TextBefore(a + x, b + y) == TextBefore(a, b)
  {
    assert (a + x)[1..] == a[1..] + x && (b + y)[1..] == b[1..] + y;
    assert a == [a[0]] + a[1..] && b == [b[0]] + b[1..];
    if a[0] == b[0] {
      TextDecided(a[1..], b[1..], x, y);
    }
  }

  /** Padded numbers compare as the numbers do. */
  lemma {:induction false} PaddedOrder(m: nat, n: nat, w: nat)
    requires m < Power(w) && n < Power(w)
    ensures (Padded(m, w) == Padded(n, w)) == (m == n)
    ensures TextBefore(Padded(m, w), Padded(n, w)) == (m < n)
  {
    if w > 0 {
      PaddedOrder(m / 10, n / 10, w - 1);
      var a, b := Padded(m / 10, w - 1), Padded(n / 10, w - 1);
      var c, d := [Digit(m % 10)], [Digit(n % 10)];
      if a == b {
        TextAfterPrefix(a, c, d);
        assert (c == d) == (m % 10 == n % 10);
        assert TextBefore(c, d) == (m % 10 < n % 10);
        SamePrefix(a, c, d);
      } else {
        TextDecided(a, b, c, d);
        assert (a + c)[..|a|] == a && (b + d)[..|b|] == b;
      }
    }
  }

  lemma SamePrefix(a: string, c: string, d: string)
    ensures (a + c == a + d) == (c == d)
  {
    assert (a + c)[|a|..] == c && (a + d)[|a|..] == d;
  }

  function Power(w: nat): nat { if w == 0 then 1 else 10 * Power(w - 1) }

  lemma Powers()
    ensures Power(2) == 100 && Power(4) == 10000 && Power(6) == 1000000
  {
  }

  // ---- The order of stamps -----------------------------------------------

  /** One field, printed and followed by a rest that decides when the field is equal. */
  lemma FieldThenRest(m: nat, n: nat, w: nat, x: string, y: string)
    requires m < Power(w) && n < Power(w)
    ensures TextBefore(Padded(m, w) + x, Padded(n, w) + y) == if m == n then TextBefore(x, y) else m < n
  {
    PaddedOrder(m, n, w);
    if m == n {
      TextAfterPrefix(Padded(m, w), x, y);
    } else {
      TextDecided(Padded(m, w), Padded(n, w), x, y);
    }
  }

  /** A left-out fraction sorts before every fraction: '+' comes before '.'. */
  lemma TailOrder(m: nat, n: nat)
    requires m < 1000000 && n < 1000000
    ensures TextBefore(Tail(m), Tail(n)) == (m < n)
  {
    Powers();
    if m != 0 && n != 0 {
      FieldThenRest(m, n, 6, "+00:00", "+00:00");
      TextAfterPrefix(".", Padded(m, 6) + "+00:00", Padded(n, 6) + "+00:00");
      assert Tail(m) == "." + (Padded(m, 6) + "+00:00") && Tail(n) == "." + (Padded(n, 6) + "+00:00");
      Irreflexive("+00:00");
    } else if m == n {
      Irreflexive(Tail(m));
    } else {
      assert Tail(m)[0] != Tail(n)[0];
    }
  }

  lemma {:induction false} Irreflexive(a: string)
    ensures !TextBefore(a, a)
  {
    if a != "" { Irreflexive(a[1..]); }
  }

  /** The fields, each followed by its separator and the rest of the stamp. */
  function Rest(t: Time, i: nat): string
    requires i <= 6
    decreases 6 - i
  {
    if i == 6 then Tail(t.micro)
    else if i == 0 then Padded(t.year, 4) + ("-" + Rest(t, 1))
    else Padded(Fields(t)[i], 2) + (Separator(i) + Rest(t, i + 1))
  }

  function Separator(i: nat): string {
    if i == 1 then "-" else if i == 2 then "T" else if i < 5 then ":" else ""
  }

  lemma Regroup(a: string, b: string, c: string, x: string, y: string, rest: string)
    ensures a + x + b + y + c + rest == a + (x + (b + (y + (c + rest))))
  {
    assert a + x + b + y + c + rest == a + (x + b + y + c + rest);
    assert x + b + y + c + rest == x + (b + y + c + rest);
    assert b + y + c + rest == b + (y + c + rest);
    assert y + c + rest == y + (c + rest);
  }

  lemma ClockIsRest(t: Time)
    ensures Rest(t, 3) == Clock(t) + Tail(t.micro)
  {
    assert Rest(t, 5) == Padded(t.second, 2) + Tail(t.micro);
    assert Rest(t, 4) == Padded(t.minute, 2) + (":" + Rest(t, 5));
    Regroup(Padded(t.hour, 2), Padded(t.minute, 2), Padded(t.second, 2), ":", ":", Tail(t.micro));
  }

  lemma DateThenRest(t: Time)
    ensures Rest(t, 0) == Date(t) + ("T" + Rest(t, 3))
  {
    assert Rest(t, 1) == Padded(t.month, 2) + ("-" + Rest(t, 2));
    Regroup(Padded(t.year, 4), Padded(t.month, 2), Padded(t.day, 2), "-", "-", "T" + Rest(t, 3));
  }

  lemma StampIsRest(t: Time)
    ensures IsoFormat(t) == Rest(t, 0)
  {
    DateThenRest(t);
    ClockIsRest(t);
    Nest(Date(t), "T", Clock(t), Tail(t.micro));
  }

  lemma Nest(a: string, b: string, c: string, d: string)
    ensures a + b + c + d == a + (b + (c + d))
  {
  }

  /** Earlier, looking only at the fields from i on. */
  predicate EarlierFrom(a: Time, b: Time, i: nat)
    requires i <= 6
    decreases 6 - i
  {
    if i == 6 then a.micro < b.micro
    else Fields(a)[i] < Fields(b)[i] || (Fields(a)[i] == Fields(b)[i] && EarlierFrom(a, b, i + 1))
  }

  lemma {:induction false} RestOrder(a: Time, b: Time, i: nat)
    requires Valid(a) && Valid(b) && i <= 6
    ensures TextBefore(Rest(a, i), Rest(b, i)) == EarlierFrom(a, b, i)
    decreases 6 - i
  {
    if i == 6 {
      TailOrder(a.micro, b.micro);
    } else {
      RestOrder(a, b, i + 1);
      FieldDecides(a, b, i);
    }
  }

  lemma FieldDecides(a: Time, b: Time, i: nat)
    requires Valid(a) && Valid(b) && i < 6
    ensures TextBefore(Rest(a, i), Rest(b, i)) ==
            (Fields(a)[i] < Fields(b)[i] || (Fields(a)[i] == Fields(b)[i] && TextBefore(Rest(a, i + 1), Rest(b, i + 1))))
  {
    Powers();
    var separator := if i == 0 then "-" else Separator(i);
    FieldThenRest(Fields(a)[i], Fields(b)[i], if i == 0 then 4 else 2,
                  separator + Rest(a, i + 1), separator + Rest(b, i + 1));
    TextAfterPrefix(separator, Rest(a, i + 1), Rest(b, i + 1));
  }

  lemma PrefixDiffers(x: seq<nat>, y: seq<nat>, i: nat, j: nat)
    requires i < j <= |x| && j <= |y| && x[i] != y[i]
    ensures x[..j] != y[..j]
  {
    assert x[..j][i] == x[i] && y[..j][i] == y[i];
  }

  lemma {:induction false} EarlierFromMeans(a: Time, b: Time, i: nat)
    requires i <= 6 && Fields(a)[..i] == Fields(b)[..i]
    ensures EarlierFrom(a, b, i) <==> exists j: nat :: i <= j && FirstDifference(a, b, j) && Fields(a)[j] < Fields(b)[j]
    decreases 6 - i
  {
    if Fields(a)[i] != Fields(b)[i] {
      assert FirstDifference(a, b, i);
      forall j: nat | i < j < 7
        ensures !FirstDifference(a, b, j)
      {
        PrefixDiffers(Fields(a), Fields(b), i, j);
      }
    } else {
      assert Fields(a)[..i + 1] == Fields(a)[..i] + [Fields(a)[i]];
      assert Fields(b)[..i + 1] == Fields(b)[..i] + [Fields(b)[i]];
      if i < 6 {
        EarlierFromMeans(a, b, i + 1);
      }
    }
  }

  /** Comparing two stored stamps as text compares the times. */
  lemma StampsCompareAsTimes(a: Time, b: Time)
    requires Valid(a) && Valid(b)
    ensures TextBefore(IsoFormat(a), IsoFormat(b)) <==> Earlier(a, b)
    ensures IsoFormat(a) == IsoFormat(b) <==> a == b
  {
    StampIsRest(a);
    StampIsRest(b);
    RestOrder(a, b, 0);
    EarlierFromMeans(a, b, 0);
    if IsoFormat(a) == IsoFormat(b) && a != b {
      Differ(a, b);
      RestOrder(b, a, 0);
      EarlierFromMeans(b, a, 0);
      Irreflexive(IsoFormat(a));
    }
  }

  lemma SameFields(a: Time, b: Time)
    ensures Fields(a)[..7] == Fields(b)[..7] ==> a == b
  {
    assert Fields(a)[..7] == Fields(a) && Fields(b)[..7] == Fields(b);
    assert Fields(a)[0] == a.year && Fields(a)[1] == a.month && Fields(a)[2] == a.day && Fields(a)[3] == a.hour;
    assert Fields(a)[4] == a.minute && Fields(a)[5] == a.second && Fields(a)[6] == a.micro;
  }

  lemma Differ(a: Time, b: Time)
    requires a != b
    ensures Earlier(a, b) || Earlier(b, a)
  {
    SameFields(a, b);
    var i: nat := 0;
    while i < 7 && Fields(a)[i] == Fields(b)[i]
      invariant i <= 7 && Fields(a)[..i] == Fields(b)[..i]
    {
      assert Fields(a)[..i + 1] == Fields(a)[..i] + [Fields(a)[i]] && Fields(b)[..i + 1] == Fields(b)[..i] + [Fields(b)[i]];
      i := i + 1;
    }
    if i < 7 {
      assert FirstDifference(a, b, i) && FirstDifference(b, a, i);
    }
  }
}
