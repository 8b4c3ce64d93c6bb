// The texts that SQLite compares stand for the values they encode: dbTime keeps the order of instants, and
// orderValue the order of unsigned 64-bit numbers.
module MessageOrder {
  import opened Schema
  import opened TextOrder
  import opened Wrappers

  const DIGITS := "0123456789"

  function Power(width: nat): (p: nat)
    ensures p >= 1
  {
    if width == 0 then 1 else 10 * Power(width - 1)
  }

  // A number in decimal, padded with zeros to a fixed width.
  function Fixed(n: nat, width: nat): (s: string)
    requires n < Power(width)
    ensures |s| == width
  {
    if width == 0 then "" else Fixed(n / 10, width - 1) + [DIGITS[n % 10]]
  }

  lemma LessPrefix(p: string, a: string, b: string)
    ensures Less(p + a, p + b) == Less(a, b)
  {
    if p == [] {
      assert p + a == a && p + b == b;
    } else {
      LessPrefix(p[1..], a, b);
      assert (p + a)[1..] == p[1..] + a && (p + b)[1..] == p[1..] + b;
    }
  }

  // Texts of one length are compared before what follows them.
  lemma {:induction false} LessBlock(p: string, q: string, a: string, b: string)
    requires |p| == |q|
    ensures Less(p + a, q + b) == (Less(p, q) || (p == q && Less(a, b)))
  {
    if p == [] {
      assert p + a == a && q + b == b;
    } else {
      LessBlock(p[1..], q[1..], a, b);
      assert (p + a)[1..] == p[1..] + a && (q + b)[1..] == q[1..] + b;
      assert p == [p[0]] + p[1..] && q == [q[0]] + q[1..];
    }
  }

  lemma {:induction false} FixedOrder(m: nat, n: nat, width: nat)
    requires m < Power(width) && n < Power(width)
    ensures Less(Fixed(m, width), Fixed(n, width)) == (m < n)
    ensures Fixed(m, width) == Fixed(n, width) ==> m == n
  {
    if width > 0 {
      FixedOrder(m / 10, n / 10, width - 1);
      var p, q := Fixed(m / 10, width - 1), Fixed(n / 10, width - 1);
      DigitOrder(m % 10, n % 10);
      LessBlock(p, q, [DIGITS[m % 10]], [DIGITS[n % 10]]);
      if Fixed(m, width) == Fixed(n, width) {
        assert Fixed(m, width)[..width - 1] == p && Fixed(n, width)[..width - 1] == q;
        assert Fixed(m, width)[width - 1] == DIGITS[m % 10] && Fixed(n, width)[width - 1] == DIGITS[n % 10];
      }
    }
  }

  lemma DigitOrder(c: nat, d: nat)
    requires c < 10 && d < 10
    ensures Less([DIGITS[c]], [DIGITS[d]]) == (c < d) && (DIGITS[c] == DIGITS[d] ==> c == d)
  {
    assert [DIGITS[c]][1..] == [] && [DIGITS[d]][1..] == [];
  }

  // An instant in the Gregorian calendar, in UTC.
  datatype Civil = Civil(year: nat, month: nat, day: nat, hour: nat, minute: nat, second: nat, nano: nat)

  predicate Leap(year: nat) {
    year % 4 == 0 && (year % 100 != 0 || year % 400 == 0)
  }

  function DaysIn(year: nat, month: nat): (n: nat)
    requires 1 <= month <= 12
    ensures 28 <= n <= 31
  {
    if month in {4, 6, 9, 11} then 30 else if month != 2 then 31 else if Leap(year) then 29 else 28
  }

  // The days before a month, counted from the first day of year 0.
  function DaysBefore(year: nat, month: nat): nat
    requires 1 <= month <= 13
    decreases year, month
  {
    if month > 1 then DaysBefore(year, month - 1) + DaysIn(year, month - 1)
    else if year > 0 then DaysBefore(year - 1, 13)
    else 0
  }

  // The years that dbTime writes with four digits.
  predicate Valid(c: Civil) {
    && c.year < 10000 && 1 <= c.month <= 12 && 1 <= c.day <= DaysIn(c.year, c.month)
    && c.hour < 24 && c.minute < 60 && c.second < 60 && c.nano < 1000000000
  }

  function Day(c: Civil): nat
    requires Valid(c)
  {
    DaysBefore(c.year, c.month) + c.day - 1
  }

  function Clock(c: Civil): (ns: nat)
    requires Valid(c)
    ensures ns < 86400 * 1000000000
  {
    ((c.hour * 60 + c.minute) * 60 + c.second) * 1000000000 + c.nano
  }

  // The nanoseconds since year 0.
  function Instant(c: Civil): nat
    requires Valid(c)
  {
    Day(c) * (86400 * 1000000000) + Clock(c)
  }

  // dbTime: 2006-01-02T15:04:05.000000000Z.
  function DbTime(c: Civil): string
    requires Valid(c)
  {
    FixedAreWide();
    Fixed(c.year, 4) + ("-" + (Fixed(c.month, 2) + ("-" + (Fixed(c.day, 2) + ("T" + (Fixed(c.hour, 2) + (":" +
    (Fixed(c.minute, 2) + (":" + (Fixed(c.second, 2) + ("." + (Fixed(c.nano, 9) + "Z"))))))))))))
  }

  lemma FixedAreWide()
    ensures Power(2) == 100 && Power(4) == 10000 && Power(9) == 1000000000 && Power(20) == 100000000000000000000
  {
    assert Power(5) == 100000 && Power(10) == 10000000000 && Power(15) == 1000000000000000;
  }

  lemma {:induction false} LaterMonthsComeLater(y: nat, m: nat, y': nat, m': nat)
    requires 1 <= m <= 12 && 1 <= m' <= 13 && (y < y' || (y == y' && m < m'))
    ensures DaysBefore(y, m) + DaysIn(y, m) <= DaysBefore(y', m')
    decreases y', m'
  {
    if y == y' && m + 1 == m' {
    } else if m' > 1 {
      LaterMonthsComeLater(y, m, y', m' - 1);
    } else {
      LaterMonthsComeLater(y, m, y' - 1, 13);
    }
  }

  predicate EarlierDay(a: Civil, b: Civil) {
    a.year < b.year || (a.year == b.year && (a.month < b.month || (a.month == b.month && a.day < b.day)))
  }

  predicate EarlierClock(a: Civil, b: Civil) {
    a.hour < b.hour || (a.hour == b.hour && (a.minute < b.minute || (a.minute == b.minute &&
      (a.second < b.second || (a.second == b.second && a.nano < b.nano)))))
  }

  lemma DaysInOrder(a: Civil, b: Civil)
    requires Valid(a) && Valid(b) && EarlierDay(a, b)
    ensures Day(a) < Day(b)
  {
    if a.year < b.year || (a.year == b.year && a.month < b.month) {
      LaterMonthsComeLater(a.year, a.month, b.year, b.month);
    }
  }

  predicate Earlier(a: Civil, b: Civil) {
    EarlierDay(a, b) || (!EarlierDay(b, a) && EarlierClock(a, b))
  }

  lemma InstantsInOrder(a: Civil, b: Civil)
    requires Valid(a) && Valid(b) && Earlier(a, b)
    ensures Instant(a) < Instant(b)
  {
    hide Day, Clock;
    if EarlierDay(a, b) {
      DaysInOrder(a, b);
    } else {
      ClocksInOrder(a, b);
    }
  }

  lemma ClocksInOrder(a: Civil, b: Civil)
    requires Valid(a) && Valid(b) && !EarlierDay(a, b) && !EarlierDay(b, a) && EarlierClock(a, b)
    ensures Day(a) == Day(b) && Clock(a) < Clock(b)
  {
    hide DaysBefore;
    var s, t := (a.hour * 60 + a.minute) * 60 + a.second, (b.hour * 60 + b.minute) * 60 + b.second;
    assert s < t || (s == t && a.nano < b.nano);
  }

  lemma NumberBlock(m: nat, n: nat, width: nat, separator: string, a: string, b: string)
    requires m < Power(width) && n < Power(width)
    ensures Less(Fixed(m, width) + (separator + a), Fixed(n, width) + (separator + b)) ==
            (m < n || (m == n && Less(a, b)))
  {
    FixedOrder(m, n, width);
    LessBlock(Fixed(m, width), Fixed(n, width), separator + a, separator + b);
    LessPrefix(separator, a, b);
  }

  lemma DbTimeOrder(a: Civil, b: Civil)
    requires Valid(a) && Valid(b)
    ensures Less(DbTime(a), DbTime(b)) == Earlier(a, b)
  {
    hide Fixed, Less, Power;
    FixedAreWide();
    var a9, b9 := Fixed(a.nano, 9) + ("Z" + ""), Fixed(b.nano, 9) + ("Z" + "");
    NumberBlock(a.nano, b.nano, 9, "Z", "", "");
    assert !Less("", "") by { LessIrreflexive(""); }
    assert a9 == Fixed(a.nano, 9) + "Z" && b9 == Fixed(b.nano, 9) + "Z";
    var aS, bS := Fixed(a.second, 2) + ("." + a9), Fixed(b.second, 2) + ("." + b9);
    NumberBlock(a.second, b.second, 2, ".", a9, b9);
    var aM, bM := Fixed(a.minute, 2) + (":" + aS), Fixed(b.minute, 2) + (":" + bS);
    NumberBlock(a.minute, b.minute, 2, ":", aS, bS);
    var aH, bH := Fixed(a.hour, 2) + (":" + aM), Fixed(b.hour, 2) + (":" + bM);
    NumberBlock(a.hour, b.hour, 2, ":", aM, bM);
    var aD, bD := Fixed(a.day, 2) + ("T" + aH), Fixed(b.day, 2) + ("T" + bH);
    NumberBlock(a.day, b.day, 2, "T", aH, bH);
    var aO, bO := Fixed(a.month, 2) + ("-" + aD), Fixed(b.month, 2) + ("-" + bD);
    NumberBlock(a.month, b.month, 2, "-", aD, bD);
    NumberBlock(a.year, b.year, 4, "-", aO, bO);
  }

  // The texts of two instants compare as the instants do, to the nanosecond.
  lemma TimesAsTexts(a: Civil, b: Civil)
    requires Valid(a) && Valid(b)
    ensures Less(DbTime(a), DbTime(b)) <==> Instant(a) < Instant(b)
    ensures (DbTime(a) == DbTime(b)) == (a == b) && (Instant(a) == Instant(b)) == (a == b)
  {
    hide DbTime, Instant;
    DbTimeOrder(a, b);
    DbTimeOrder(b, a);
    LessIrreflexive(DbTime(a));
    if Earlier(a, b) {
      InstantsInOrder(a, b);
    } else if Earlier(b, a) {
      InstantsInOrder(b, a);
    } else {
      assert a == b;
    }
  }

  // Every instant of those years has such a text.
  lemma CivilOf(ns: nat) returns (c: Civil)
    requires ns < DaysBefore(10000, 1) * (86400 * 1000000000)
    ensures Valid(c) && Instant(c) == ns
  {
    hide DaysBefore;
    var d, clock := ns / (86400 * 1000000000), ns % (86400 * 1000000000);
    assert d < DaysBefore(10000, 1);
    var y, m := MonthOf(d, 10000, 1);
    var hour, minute, second, nano := ClockOf(clock);
    c := Civil(y, m, d - DaysBefore(y, m) + 1, hour, minute, second, nano);
  }

  lemma ClockOf(clock: nat) returns (hour: nat, minute: nat, second: nat, nano: nat)
    requires clock < 86400 * 1000000000
    ensures hour < 24 && minute < 60 && second < 60 && nano < 1000000000
    ensures ((hour * 60 + minute) * 60 + second) * 1000000000 + nano == clock
  {
    var seconds := clock / 1000000000;
    nano := clock % 1000000000;
    var minutes := seconds / 60;
    second := seconds % 60;
    hour, minute := minutes / 60, minutes % 60;
  }

  lemma {:induction false} MonthOf(d: nat, y': nat, m': nat) returns (y: nat, m: nat)
    requires 1 <= m' <= 13 && d < DaysBefore(y', m')
    ensures 1 <= m <= 12 && DaysBefore(y, m) <= d < DaysBefore(y, m) + DaysIn(y, m) && (y < y' || (y == y' && m < m'))
    decreases y', m'
  {
    if m' == 1 {
      y, m := MonthOf(d, y' - 1, 13);
    } else if DaysBefore(y', m' - 1) <= d {
      y, m := y', m' - 1;
    } else {
      y, m := MonthOf(d, y', m' - 1);
    }
  }

  const MAX_ORDER: nat := 0xffff_ffff_ffff_ffff

  // COALESCE(provider_order, '~') of orderValue.
  function OrderText(order: Option<nat>): string
    requires order.Some? ==> order.value <= MAX_ORDER
  {
    FixedAreWide();
    if order.None? then "~" else Fixed(order.value, 20)
  }

  predicate LaterOrder(a: Option<nat>, b: Option<nat>) {
    (a.None? && b.Some?) || (a.Some? && b.Some? && a.value > b.value)
  }

  // The texts of provider orders compare as the numbers, with an absent order after all of them.
  lemma OrdersAsTexts(a: Option<nat>, b: Option<nat>)
    requires (a.Some? ==> a.value <= MAX_ORDER) && (b.Some? ==> b.value <= MAX_ORDER)
    ensures Less(OrderText(b), OrderText(a)) <==> LaterOrder(a, b)
    ensures OrderText(a) == OrderText(b) <==> a == b
  {
    FixedAreWide();
    if a.Some? && b.Some? {
      FixedOrder(b.value, a.value, 20);
    } else if a.Some? || b.Some? {
      var n := if a.Some? then a.value else b.value;
      FixedStartsWithDigit(n, 20);
      var s := Fixed(n, 20);
      assert Less(s, "~") && !Less("~", s) && s[0] != '~';
    } else {
      LessIrreflexive("~");
    }
  }

  lemma {:induction false} FixedStartsWithDigit(n: nat, width: nat)
    requires n < Power(width) && width > 0
    ensures '0' <= Fixed(n, width)[0] <= '9'
  {
    if width == 1 {
      assert DIGITS[n % 10] <= '9';
    } else {
      FixedStartsWithDigit(n / 10, width - 1);
    }
  }

  // SQLite's comparison of (occurred_at, COALESCE(provider_order, '~'), local_order).
  predicate RowLess(t: string, o: string, l: nat, t': string, o': string, l': nat) {
    Less(t, t') || (t == t' && (Less(o, o') || (o == o' && l < l')))
  }

  // The comparison of the stored columns is the order of the positions they store.
  lemma ColumnsInOrder(a: Position, b: Position, ca: Civil, cb: Civil)
    requires Valid(ca) && Valid(cb) && a.at == Instant(ca) && b.at == Instant(cb)
    requires (a.order.Some? ==> a.order.value <= MAX_ORDER) && (b.order.Some? ==> b.order.value <= MAX_ORDER)
    ensures RowLess(DbTime(ca), OrderText(a.order), a.local, DbTime(cb), OrderText(b.order), b.local) <==> Later(b, a)
  {
    hide DbTime, Instant, OrderText, Less;
    TimesAsTexts(ca, cb);
    OrdersAsTexts(b.order, a.order);
  }
}
