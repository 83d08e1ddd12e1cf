/** Instants as the texts SQLite compares: time.RFC3339Nano in UTC, which drops trailing zeros of the fraction. */
module TextTime {
  import opened Common
  import opened Store

  // ---- The calendar ----

  datatype Instant = Instant(year: nat, month: nat, day: nat, hour: nat, minute: nat, second: nat, nano: nat)

  predicate IsLeap(y: nat) {
    y % 4 == 0 && (y % 100 != 0 || y % 400 == 0)
  }

  function YearLength(y: nat): nat {
    if IsLeap(y) then 366 else 365
  }

  function MonthLength(y: nat, m: nat): nat {
    if m == 2 then (if IsLeap(y) then 29 else 28)
    else if m == 4 || m == 6 || m == 9 || m == 11 then 30
    else 31
  }

  predicate Valid(t: Instant) {
    && t.year <= 9999 && 1 <= t.month <= 12 && 1 <= t.day <= MonthLength(t.year, t.month)
    && t.hour < 24 && t.minute < 60 && t.second < 60 && t.nano < 1_000_000_000
  }

  function DaysBeforeYear(y: nat): nat {
    if y == 0 then 0 else DaysBeforeYear(y - 1) + YearLength(y - 1)
  }

  function DaysBeforeMonth(y: nat, m: nat): nat {
    if m <= 1 then 0 else DaysBeforeMonth(y, m - 1) + MonthLength(y, m - 1)
  }

  function Seconds(t: Instant): nat
    requires Valid(t)
  {
    86400 * (DaysBeforeYear(t.year) + DaysBeforeMonth(t.year, t.month) + t.day - 1) + 3600 * t.hour + 60 * t.minute + t.second
  }

  /** Nanoseconds since the beginning of the year 0. */
  function Nanos(t: Instant): nat
    requires Valid(t)
  {
    1_000_000_000 * Seconds(t) + t.nano
  }

  lemma {:induction false} YearsGrow(y: nat, z: nat)
    requires y < z
    ensures DaysBeforeYear(y) + YearLength(y) <= DaysBeforeYear(z)
  {
    if z > y + 1 {
      YearsGrow(y, z - 1);
    }
  }

  lemma {:induction false} MonthsGrow(y: nat, m: nat, n: nat)
    requires 1 <= m < n
    ensures DaysBeforeMonth(y, m) + MonthLength(y, m) <= DaysBeforeMonth(y, n)
  {
    if n > m + 1 {
      MonthsGrow(y, m, n - 1);
    }
  }

  lemma MonthsFit(y: nat)
    ensures DaysBeforeMonth(y, 12) + MonthLength(y, 12) == YearLength(y)
  {
    var february := MonthLength(y, 2);
    assert DaysBeforeMonth(y, 1) == 0;
    assert DaysBeforeMonth(y, 2) == 31;
    assert DaysBeforeMonth(y, 3) == 31 + february;
    assert DaysBeforeMonth(y, 5) == 31 + february + 31 + 30;
    assert DaysBeforeMonth(y, 7) == february + 153;
    assert DaysBeforeMonth(y, 9) == february + 215;
    assert DaysBeforeMonth(y, 11) == february + 276;
  }

  /** The fields down to the second, most significant first. */
  predicate SecondLess(t: Instant, u: Instant) {
    || t.year < u.year
    || (t.year == u.year && (t.month < u.month
    || (t.month == u.month && (t.day < u.day
    || (t.day == u.day && (t.hour < u.hour
    || (t.hour == u.hour && (t.minute < u.minute
    || (t.minute == u.minute && t.second < u.second)))))))))
  }

  predicate SameSecond(t: Instant, u: Instant) {
    t.year == u.year && t.month == u.month && t.day == u.day && t.hour == u.hour && t.minute == u.minute && t.second == u.second
  }

  lemma DayOfYear(t: Instant)
    requires Valid(t)
    ensures DaysBeforeMonth(t.year, t.month) + t.day <= YearLength(t.year)
  {
    MonthsFit(t.year);
    if t.month < 12 {
      MonthsGrow(t.year, t.month, 12);
    }
  }

  lemma SecondLessIsLess(t: Instant, u: Instant)
    requires Valid(t) && Valid(u) && SecondLess(t, u)
    ensures Seconds(t) < Seconds(u)
  {
    if t.year < u.year {
      YearsGrow(t.year, u.year);
      DayOfYear(t);
    } else if t.month < u.month {
      MonthsGrow(t.year, t.month, u.month);
    }
  }

  /** The fields order instants as time does. */
  lemma SecondsOrder(t: Instant, u: Instant)
    requires Valid(t) && Valid(u)
    ensures Seconds(t) < Seconds(u) <==> SecondLess(t, u)
    ensures Seconds(t) == Seconds(u) <==> SameSecond(t, u)
  {
    if SecondLess(t, u) {
      SecondLessIsLess(t, u);
    } else if SecondLess(u, t) {
      SecondLessIsLess(u, t);
    }
  }

  // ---- The text ----

  function Digit(d: nat): (c: char)
    requires d < 10
    ensures '0' <= c <= '9'
  {
    '0' + d as char
  }

  /** `n` in exactly `w` digits. */
  function Pad(n: nat, w: nat): (s: string)
    ensures |s| == w
    ensures forall i | 0 <= i < w :: '0' <= s[i] <= '9'
  {
    if w == 0 then "" else Pad(n / 10, w - 1) + [Digit(n % 10)]
  }

  function TenTo(w: nat): nat {
    if w == 0 then 1 else 10 * TenTo(w - 1)
  }

  lemma {:induction false} LexSplit(a: string, b: string, c: string, d: string)
    requires |a| == |c|
    ensures LexLess(a + b, c + d) <==> LexLess(a, c) || (a == c && LexLess(b, d))
  {
    if a == [] {
      assert a + b == b && c + d == d;
    } else {
      LexSplit(a[1..], b, c[1..], d);
      assert (a + b)[1..] == a[1..] + b && (c + d)[1..] == c[1..] + d;
      assert a == c <==> a[0] == c[0] && a[1..] == c[1..];
    }
  }

  lemma {:induction false} PadOrder(n: nat, m: nat, w: nat)
    requires n < TenTo(w) && m < TenTo(w)
    ensures LexLess(Pad(n, w), Pad(m, w)) <==> n < m
    ensures Pad(n, w) == Pad(m, w) <==> n == m
  {
    if w > 0 {
      PadOrder(n / 10, m / 10, w - 1);
      var a, c := Pad(n / 10, w - 1), Pad(m / 10, w - 1);
      var b, d := [Digit(n % 10)], [Digit(m % 10)];
      LexSplit(a, b, c, d);
      assert Pad(n, w) == a + b && Pad(m, w) == c + d;
      assert (a + b)[..w - 1] == a && (c + d)[..w - 1] == c && (a + b)[w - 1] == b[0] && (c + d)[w - 1] == d[0];
      assert LexLess(b, d) <==> b[0] < d[0];
    }
  }

  /** A fraction's digits without its trailing zeros. */
  function TrimZeros(s: string): (t: string)
    ensures t <= s
    ensures t == [] || t[|t| - 1] != '0'
    ensures forall i | |t| <= i < |s| :: s[i] == '0'
  {
    if s != [] && s[|s| - 1] == '0' then TrimZeros(s[..|s| - 1]) else s
  }

  function FractionDigits(nano: nat): string {
    TrimZeros(Pad(nano, 9))
  }

  function Dotted(digits: string): string {
    if digits == "" then "" else "." + digits
  }

  function Fraction(nano: nat): string {
    Dotted(FractionDigits(nano))
  }

  function SecondText(t: Instant): string {
    Pad(t.year, 4) + ("-" + (Pad(t.month, 2) + ("-" + (Pad(t.day, 2) + ("T" + (Pad(t.hour, 2) + (":" + (Pad(t.minute, 2) + (":" + Pad(t.second, 2))))))))))
  }

  function Format(t: Instant): string {
    SecondText(t) + (Fraction(t.nano) + "Z")
  }

  lemma FieldOrder(n: nat, m: nat, w: nat, sep: string, a: string, b: string)
    requires n < TenTo(w) && m < TenTo(w)
    ensures LexLess(Pad(n, w) + (sep + a), Pad(m, w) + (sep + b)) <==> n < m || (n == m && LexLess(a, b))
    ensures Pad(n, w) + (sep + a) == Pad(m, w) + (sep + b) <==> n == m && a == b
  {
    PadOrder(n, m, w);
    LexSplit(Pad(n, w), sep + a, Pad(m, w), sep + b);
    LexSplit(sep, a, sep, b);
    LexLessIrreflexive(sep);
    var s, t := Pad(n, w) + (sep + a), Pad(m, w) + (sep + b);
    assert s[..w] == Pad(n, w) && t[..w] == Pad(m, w);
    assert s[w + |sep|..] == a && t[w + |sep|..] == b;
  }

  lemma SecondTextOrder(t: Instant, u: Instant)
    requires Valid(t) && Valid(u)
    ensures |SecondText(t)| == 19
    ensures LexLess(SecondText(t), SecondText(u)) <==> SecondLess(t, u)
    ensures SecondText(t) == SecondText(u) <==> SameSecond(t, u)
  {
    assert TenTo(4) == 10000 && TenTo(2) == 100;
    var s5, u5 := Pad(t.second, 2), Pad(u.second, 2);
    var s4, u4 := Pad(t.minute, 2) + (":" + s5), Pad(u.minute, 2) + (":" + u5);
    var s3, u3 := Pad(t.hour, 2) + (":" + s4), Pad(u.hour, 2) + (":" + u4);
    var s2, u2 := Pad(t.day, 2) + ("T" + s3), Pad(u.day, 2) + ("T" + u3);
    var s1, u1 := Pad(t.month, 2) + ("-" + s2), Pad(u.month, 2) + ("-" + u2);
    PadOrder(t.second, u.second, 2);
    FieldOrder(t.minute, u.minute, 2, ":", s5, u5);
    FieldOrder(t.hour, u.hour, 2, ":", s4, u4);
    FieldOrder(t.day, u.day, 2, "T", s3, u3);
    FieldOrder(t.month, u.month, 2, "-", s2, u2);
    FieldOrder(t.year, u.year, 4, "-", s1, u1);
    hide Pad, LexLess;
  }

  /** Strings neither of which begins the other compare as they do at their first difference. */
  lemma {:induction false} LexDiverge(a: string, b: string, x: string, y: string)
    requires !(a <= b) && !(b <= a)
    ensures LexLess(a + x, b + y) <==> LexLess(a, b)
  {
    if a[0] == b[0] {
      LexDiverge(a[1..], b[1..], x, y);
      assert (a + x)[1..] == a[1..] + x && (b + y)[1..] == b[1..] + y;
    }
  }

  lemma {:induction false} LexPrefix(a: string, b: string)
    requires a <= b
    ensures !LexLess(b, a)
  {
    if a != [] {
      LexPrefix(a[1..], b[1..]);
    }
  }

  /** The tails of two texts of the same second, told from their digits with and without trailing zeros. */
  lemma DigitsOrder(a: string, b: string, full: string, more: string)
    requires |full| == |more| && a <= full && b <= more && LexLess(full, more)
    requires forall i | |b| <= i < |more| :: more[i] == '0'
    requires forall i | 0 <= i < |full| :: '0' <= full[i] <= '9'
    requires forall i | 0 <= i < |more| :: '0' <= more[i] <= '9'
    ensures LexLess(Dotted(a) + "Z", Dotted(b) + "Z") <==> !(a < b)
    ensures Dotted(a) != Dotted(b)
  {
    if b <= a {
      ShorterIsNotLess(a, b, full, more);
    }
    assert full == a + full[|a|..] && more == b + more[|b|..];
    hide LexLess;
    if a < b {
      PrefixTail(a, b);
    } else {
      assert !(a <= b) && !(b <= a);
      LexDiverge(a, b, full[|a|..], more[|b|..]);
      LexDiverge(a, b, "Z", "Z");
      DottedOrder(a, b);
    }
  }

  lemma TailOrder(n: nat, m: nat)
    requires n < m < 1_000_000_000
    ensures LexLess(Fraction(n) + "Z", Fraction(m) + "Z") <==> !(FractionDigits(n) < FractionDigits(m))
    ensures Fraction(n) != Fraction(m)
  {
    hide LexLess, Pad, TenTo, TrimZeros, Dotted;
    TenToNine();
    PadOrder(n, m, 9);
    DigitsOrder(FractionDigits(n), FractionDigits(m), Pad(n, 9), Pad(m, 9));
  }

  lemma TenToNine()
    ensures TenTo(9) == 1_000_000_000
  {
    assert TenTo(3) == 1000;
    assert TenTo(6) == 1000 * TenTo(3);
  }

  lemma DottedOrder(a: string, b: string)
    requires !(a <= b) && !(b <= a)
    ensures LexLess("." + a + "Z", "." + b + "Z") <==> LexLess(a + "Z", b + "Z")
    ensures "." + a != "." + b
  {
    LexSplit(".", a + "Z", ".", b + "Z");
    LexLessIrreflexive(".");
    assert "." + a + "Z" == "." + (a + "Z") && "." + b + "Z" == "." + (b + "Z");
    assert ("." + a)[1..] == a && ("." + b)[1..] == b;
  }

  /** If the later fraction's digits began the earlier one's, it would not be later. */
  lemma ShorterIsNotLess(a: string, b: string, full: string, more: string)
    requires b <= a && |full| == |more| && a <= full && b <= more
    requires forall i | |b| <= i < |more| :: more[i] == '0'
    requires forall i | 0 <= i < |full| :: '0' <= full[i]
    ensures !LexLess(full, more)
  {
    LexSplit(b, full[|b|..], b, more[|b|..]);
    LexLessIrreflexive(b);
    assert full == b + full[|b|..] && more == b + more[|b|..];
    ZerosAreLeast(full[|b|..], more[|b|..]);
  }

  lemma {:induction false} ZerosAreLeast(s: string, zeros: string)
    requires |s| == |zeros| && forall i | 0 <= i < |s| :: '0' <= s[i] && zeros[i] == '0'
    ensures !LexLess(s, zeros)
  {
    if s != [] {
      ZerosAreLeast(s[1..], zeros[1..]);
    }
  }

  lemma PrefixTail(a: string, b: string)
    requires a < b && forall i | 0 <= i < |b| :: '0' <= b[i] <= '9'
    ensures !LexLess(Dotted(a) + "Z", Dotted(b) + "Z") && Dotted(a) != Dotted(b)
  {
    if a == "" {
      assert ("." + b + "Z")[0] == '.';
    } else {
      var rest := b[|a|..];
      assert "." + b + "Z" == "." + a + (rest + "Z") && "." + a + "Z" == ("." + a) + "Z";
      LexSplit("." + a, "Z", "." + a, rest + "Z");
      LexLessIrreflexive("." + a);
      assert (rest + "Z")[0] == b[|a|];
    }
  }

  // ---- Text order against time order ----

  /** The texts of two instants of the same second come in the wrong order. */
  predicate Inverted(t: Instant, u: Instant) {
    SameSecond(t, u) && FractionDigits(t.nano) < FractionDigits(u.nano)
  }

  /** Of two instants the earlier one's text sorts first, except when they share the second and the earlier one's
      trimmed fraction begins the later one's. */
  lemma TextOrder(t: Instant, u: Instant)
    requires Valid(t) && Valid(u) && Nanos(t) < Nanos(u)
    ensures LexLess(Format(t), Format(u)) <==> !Inverted(t, u)
    ensures Format(t) != Format(u)
  {
    SecondsOrder(t, u);
    SecondTextOrder(t, u);
    LexSplit(SecondText(t), Fraction(t.nano) + "Z", SecondText(u), Fraction(u.nano) + "Z");
    assert Format(t)[..19] == SecondText(t) && Format(u)[..19] == SecondText(u);
    if SameSecond(t, u) {
      TailOrder(t.nano, u.nano);
      assert Format(t)[19..] == Fraction(t.nano) + "Z" && Format(u)[19..] == Fraction(u.nano) + "Z";
      assert (Fraction(t.nano) + "Z")[..|Fraction(t.nano)|] == Fraction(t.nano);
      assert (Fraction(u.nano) + "Z")[..|Fraction(u.nano)|] == Fraction(u.nano);
    }
  }

  /** The order of texts, both ways round. */
  lemma TextLessIff(t: Instant, u: Instant)
    requires Valid(t) && Valid(u)
    ensures LexLess(Format(t), Format(u)) <==>
      (Nanos(t) < Nanos(u) && !Inverted(t, u)) || (Nanos(u) < Nanos(t) && Inverted(u, t))
  {
    hide LexLess, Format, Inverted;
    if Nanos(t) < Nanos(u) {
      TextOrder(t, u);
    } else if Nanos(u) < Nanos(t) {
      TextOrder(u, t);
      LexLessTotal(Format(t), Format(u));
      if LexLess(Format(t), Format(u)) && LexLess(Format(u), Format(t)) {
        LexLessTransitive(Format(t), Format(u), Format(t));
      }
      LexLessIrreflexive(Format(t));
    } else {
      SecondsOrder(t, u);
      SecondsOrder(u, t);
      assert t == u;
      LexLessIrreflexive(Format(t));
    }
  }

  /** A whole second's text comes after every other text of that second, although the instant comes before. */
  lemma WholeSecondsInvert(t: Instant, u: Instant)
    requires Valid(t) && Valid(u) && SameSecond(t, u) && t.nano == 0 < u.nano
    ensures Nanos(t) < Nanos(u) && LexLess(Format(u), Format(t))
  {
    SecondsOrder(t, u);
    TextLessIff(u, t);
    AllZeros(9);
    if FractionDigits(u.nano) == "" {
      NoDigits(u.nano);
    }
    assert Inverted(t, u);
  }

  lemma {:induction false} AllZeros(w: nat)
    ensures TrimZeros(Pad(0, w)) == ""
  {
    if w > 0 {
      AllZeros(w - 1);
      assert Pad(0, w)[..w - 1] == Pad(0, w - 1);
    }
  }

  lemma {:induction false} PadIsZero(n: nat, w: nat)
    requires n < TenTo(w) && forall i | 0 <= i < w :: Pad(n, w)[i] == '0'
    ensures n == 0
  {
    if w > 0 {
      var front := Pad(n / 10, w - 1);
      assert Pad(n, w) == front + [Digit(n % 10)];
      forall i | 0 <= i < w - 1 ensures front[i] == '0' {
        assert Pad(n, w)[i] == '0';
      }
      PadIsZero(n / 10, w - 1);
      assert Pad(n, w)[w - 1] == Digit(n % 10);
    }
  }

  lemma NoDigits(nano: nat)
    requires nano < 1_000_000_000 && FractionDigits(nano) == ""
    ensures nano == 0
  {
    hide Pad, TenTo;
    TenToNine();
    PadIsZero(nano, 9);
  }

  /** Exactly when a purge token is accepted: before its expiry, unless the texts are inverted; or after it, when
      they are, which is never as late as a second. */
  lemma TokenAcceptedIff(db: Db, key: TokenKey, expires: Instant, now: Instant)
    requires key in db.tokens && db.tokens[key].expires == Format(expires) && Valid(expires) && Valid(now)
    ensures Spendable(db, key, Format(now)) <==>
      && !db.tokens[key].consumed
      && ((Nanos(now) < Nanos(expires) && !Inverted(now, expires)) || (Nanos(expires) < Nanos(now) && Inverted(expires, now)))
    ensures Nanos(now) >= Nanos(expires) + 1_000_000_000 ==> !Spendable(db, key, Format(now))
  {
    TextLessIff(now, expires);
    SecondsOrder(expires, now);
  }

  /** The operation a worker claims was created in the earliest second of all queued ones. */
  lemma ClaimedSecondIsMinimal(db: Db, op: OpId, created: map<OpId, Instant>, other: OpId)
    requires Claimable(db, op) && other in db.ops && db.ops[other].status == Queued
    requires op in created && Valid(created[op]) && db.ops[op].createdAt == Format(created[op])
    requires other in created && Valid(created[other]) && db.ops[other].createdAt == Format(created[other])
    ensures Seconds(created[op]) <= Seconds(created[other])
    ensures Nanos(created[other]) < Nanos(created[op]) ==> Inverted(created[other], created[op])
  {
    TextLessIff(created[other], created[op]);
    SecondsOrder(created[other], created[op]);
  }
}
