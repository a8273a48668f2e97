/**
 * Order numbers (apps/orders/services.py `next_order_no`): one locked row per
 * business year, incremented inside the checkout's transaction, so that a rollback
 * takes the number back.
 */
module OrderNumbers {
  import opened Wrappers

  const MAX_ORDER_SEQUENCE := 99999

  datatype NumberError = InvalidOrderYear | OrderNumberExhausted

  predicate FourDigitYear(year: int) { 1000 <= year <= 9999 }

  // ------------------------------------------------------------ the public form

  function Digit(d: nat): char
    requires d < 10
  {
    '0' + d as char
  }

  /** The last `width` decimal digits of `n`, zero-padded. */
  function Digits(n: nat, width: nat): (s: string)
    ensures |s| == width
  {
    if width == 0 then "" else Digits(n / 10, width - 1) + [Digit(n % 10)]
  }

  /** `f"MD-{year}-{n:05d}"` */
  function OrderNo(year: int, n: nat): string
    requires FourDigitYear(year)
  {
    "MD-" + Digits(year, 4) + "-" + Digits(n, 5)
  }

  function Power10(width: nat): nat { if width == 0 then 1 else 10 * Power10(width - 1) }

  /** Dictionary order on strings of one length. */
  predicate Precedes(a: string, b: string)
    requires |a| == |b|
  {
    |a| > 0 && (a[0] < b[0] || (a[0] == b[0] && Precedes(a[1..], b[1..])))
  }

  /** Dictionary order looks at a common-length front first, and at the rest only when the fronts agree. */
  lemma {:induction false} PrecedesAppend(a: string, b: string, s: string, t: string)
    requires |a| == |b| && |s| == |t|
    ensures Precedes(a + s, b + t) <==> Precedes(a, b) || (a == b && Precedes(s, t))
  {
    if a == [] {
      assert a + s == s && b + t == t;
    } else {
      assert (a + s)[1..] == a[1..] + s && (b + t)[1..] == b[1..] + t;
      PrecedesAppend(a[1..], b[1..], s, t);
      assert a == [a[0]] + a[1..] && b == [b[0]] + b[1..];
    }
  }

  /** The number that a string of decimal digits stands for. */
  function Value(s: string): int {
    if s == "" then 0 else 10 * Value(s[..|s| - 1]) + (s[|s| - 1] as int - 48)
  }

  predicate Decimal(s: string) { forall i :: 0 <= i < |s| ==> '0' <= s[i] <= '9' }

  /** Digits are decimal digits and stand for their number. */
  lemma {:induction false} DigitsValue(n: nat, width: nat)
    requires n < Power10(width)
    ensures Decimal(Digits(n, width)) && Value(Digits(n, width)) == n
  {
    if width > 0 {
      var s, init := Digits(n, width), Digits(n / 10, width - 1);
      DigitsValue(n / 10, width - 1);
      assert s[..width - 1] == init && s[width - 1] == Digit(n % 10);
    }
  }

  /** An order number is the letters MD, its year and its number, each in decimal digits of a fixed width. */
  lemma OrderNoReads(year: int, n: nat)
    requires FourDigitYear(year) && n <= MAX_ORDER_SEQUENCE
    ensures var s := OrderNo(year, n);
            && |s| == 13 && s[..3] == "MD-" && s[7] == '-'
            && Decimal(s[3..7]) && Value(s[3..7]) == year && Decimal(s[8..]) && Value(s[8..]) == n
  {
    var s := OrderNo(year, n);
    assert Power10(3) == 1000 && Power10(4) == 10000 && Power10(5) == 100000;
    DigitsValue(year, 4);
    DigitsValue(n, 5);
    assert s[3..7] == Digits(year, 4) && s[8..] == Digits(n, 5);
  }

  /** Fixed-width digits keep numeric order and are injective. */
  lemma {:induction false} DigitsOrder(m: nat, n: nat, width: nat)
    requires m < Power10(width) && n < Power10(width)
    ensures Precedes(Digits(m, width), Digits(n, width)) <==> m < n
    ensures Digits(m, width) == Digits(n, width) <==> m == n
  {
    if width > 0 {
      var a, b := Digits(m / 10, width - 1), Digits(n / 10, width - 1);
      var x, y := [Digit(m % 10)], [Digit(n % 10)];
      DigitsOrder(m / 10, n / 10, width - 1);
      PrecedesAppend(a, b, x, y);
      assert (a + x)[..width - 1] == a && (b + y)[..width - 1] == b;
      assert (a + x)[width - 1] == x[0] && (b + y)[width - 1] == y[0];
      assert x[1..] == [] && y[1..] == [];
    }
  }

  /** Order numbers are injective and sort as year and number do. */
  lemma OrderNoOrder(y: int, m: nat, z: int, n: nat)
    requires FourDigitYear(y) && FourDigitYear(z) && m <= MAX_ORDER_SEQUENCE && n <= MAX_ORDER_SEQUENCE
    ensures |OrderNo(y, m)| == |OrderNo(z, n)| == 13
    ensures Precedes(OrderNo(y, m), OrderNo(z, n)) <==> y < z || (y == z && m < n)
    ensures OrderNo(y, m) == OrderNo(z, n) <==> y == z && m == n
  {
    var a, b, s, t := Digits(y, 4), Digits(z, 4), Digits(m, 5), Digits(n, 5);
    assert Power10(3) == 1000 && Power10(4) == 10000 && Power10(5) == 100000;
    DigitsOrder(y, z, 4);
    DigitsOrder(m, n, 5);
    assert OrderNo(y, m) == ("MD-" + a) + ("-" + s) && OrderNo(z, n) == ("MD-" + b) + ("-" + t);
    PrecedesAppend("MD-" + a, "MD-" + b, "-" + s, "-" + t);
    PrecedesAppend("MD-", "MD-", a, b);
    PrecedesAppend("-", "-", s, t);
    NotBeforeItself("MD-");
    NotBeforeItself("-");
    assert ("MD-" + a)[3..] == a && ("MD-" + b)[3..] == b;
    assert ("-" + s)[1..] == s && ("-" + t)[1..] == t;
    assert OrderNo(y, m)[..7] == "MD-" + a && OrderNo(z, n)[..7] == "MD-" + b;
    assert OrderNo(y, m)[7..] == "-" + s && OrderNo(z, n)[7..] == "-" + t;
  }

  lemma {:induction false} NotBeforeItself(s: string)
    ensures !Precedes(s, s)
  {
    if s != [] {
      NotBeforeItself(s[1..]);
    }
  }

  // ------------------------------------------------------------ the allocator

  function Last(last: map<int, nat>, year: int): nat { if year in last then last[year] else 0 }

  class OrderSequence {
    var last: map<int, nat>

    constructor ()
      ensures last == map[]
    {
      last := map[];
    }

    /** The next number of the year, or an error that leaves the row alone. */
    method NextOrderNo(year: int) returns (r: Result<string, NumberError>)
      modifies this
      ensures r == Err(InvalidOrderYear) <==> !FourDigitYear(year)
      ensures r == Err(OrderNumberExhausted) <==> FourDigitYear(year) && Last(old(last), year) >= MAX_ORDER_SEQUENCE
      ensures r.Ok? ==> last == old(last)[year := Last(old(last), year) + 1] && r.value == OrderNo(year, last[year])
      ensures r.Ok? <==> 1000 <= year <= 9999 && (year in old(last) ==> old(last)[year] < 99999)
      ensures r.Err? ==> last == old(last)
    {
      if !(1000 <= year <= 9999) {
        return Err(InvalidOrderYear);
      }
      var row := if year in last then last[year] else 0;
      if row >= MAX_ORDER_SEQUENCE {
        return Err(OrderNumberExhausted);
      }
      last := last[year := row + 1];
      return Ok(OrderNo(year, row + 1));
    }
  }

  // ------------------------------------------------------------ any interleaving of transactions

  /** An order transaction that has allocated and not yet ended; it holds its year's row lock. */
  datatype Open = Open(year: int, number: nat)

  /** Committed rows, committed orders in commit order, and the open transactions. */
  datatype Office = Office(last: map<int, nat>, issued: seq<Open>, open: map<nat, Open>)

  datatype Action = Allocate(tx: nat, year: int) | CommitOrder(tx: nat) | Rollback(tx: nat)

  predicate Locked(s: Office, year: int) { exists tx :: tx in s.open && s.open[tx].year == year }

  /** An allocation waits for the row lock; one that raises ends its transaction. */
  function Act(s: Office, a: Action): Office {
    match a
    case Allocate(tx, year) =>
      if tx in s.open || !FourDigitYear(year) || Locked(s, year) || Last(s.last, year) >= MAX_ORDER_SEQUENCE then s
      else s.(open := s.open[tx := Open(year, Last(s.last, year) + 1)])
    case CommitOrder(tx) =>
      if tx !in s.open then s
      else
        var t := s.open[tx];
        Office(s.last[t.year := t.number], s.issued + [t], s.open - {tx})
    case Rollback(tx) => s.(open := s.open - {tx})
  }

  function Acts(s: Office, actions: seq<Action>): Office {
    if actions == [] then s else Act(Acts(s, actions[..|actions| - 1]), actions[|actions| - 1])
  }

  /** The numbers issued for one year, in commit order. */
  function IssuedIn(issued: seq<Open>, year: int): seq<nat> {
    if issued == [] then []
    else
      var t := issued[|issued| - 1];
      IssuedIn(issued[..|issued| - 1], year) + if t.year == year then [t.number] else []
  }

  function OneTo(n: nat): (s: seq<nat>) { seq(n, i => i + 1) }

  /** A year's committed numbers are 1, 2, ..., last, in that order. */
  ghost predicate Gapless(issued: seq<Open>, last: map<int, nat>) {
    forall y :: IssuedIn(issued, y) == OneTo(Last(last, y)) && Last(last, y) <= MAX_ORDER_SEQUENCE
  }

  /** Each open transaction holds its year's lock and the year's next number. */
  ghost predicate LocksOk(s: Office) {
    && (forall tx :: tx in s.open ==>
          && FourDigitYear(s.open[tx].year)
          && s.open[tx].number == Last(s.last, s.open[tx].year) + 1 <= MAX_ORDER_SEQUENCE)
    && (forall t, u :: t in s.open && u in s.open && s.open[t].year == s.open[u].year ==> t == u)
  }

  ghost predicate OfficeOk(s: Office) {
    Gapless(s.issued, s.last) && LocksOk(s) && YearsOk(s.issued)
  }

  /** The committed number is the next one of its year, and other years are untouched. */
  lemma IssuedNext(s: Office, t: Open, y: int)
    requires IssuedIn(s.issued, y) == OneTo(Last(s.last, y)) && t.number == Last(s.last, t.year) + 1
    ensures IssuedIn(s.issued + [t], y) == OneTo(Last(s.last[t.year := t.number], y))
  {
    assert (s.issued + [t])[..|s.issued|] == s.issued;
    assert IssuedIn(s.issued, y) + [] == IssuedIn(s.issued, y);
    assert OneTo(t.number) == OneTo(t.number - 1) + [t.number];
  }

  lemma LocksKept(s: Office, a: Action)
    requires LocksOk(s)
    ensures LocksOk(Act(s, a))
  {
    match a
    case Allocate(tx, year) =>
      var s' := Act(s, a);
      forall t, u | t in s'.open && u in s'.open && s'.open[t].year == s'.open[u].year ensures t == u {}
    case Rollback(tx) =>
    case CommitOrder(tx) =>
      if tx in s.open {
        forall t | t in Act(s, a).open ensures s.open[t].year != s.open[tx].year {}
      }
  }

  lemma CommitGapless(s: Office, t: Open)
    requires Gapless(s.issued, s.last) && t.number == Last(s.last, t.year) + 1 <= MAX_ORDER_SEQUENCE
    ensures Gapless(s.issued + [t], s.last[t.year := t.number])
  {
    forall y
      ensures IssuedIn(s.issued + [t], y) == OneTo(Last(s.last[t.year := t.number], y))
      ensures Last(s.last[t.year := t.number], y) <= MAX_ORDER_SEQUENCE
    {
      assert IssuedIn(s.issued, y) == OneTo(Last(s.last, y)) && Last(s.last, y) <= MAX_ORDER_SEQUENCE;
      IssuedNext(s, t, y);
    }
  }

  /** Every issued number belongs to a four-digit year. */
  ghost predicate YearsOk(issued: seq<Open>) { forall i :: 0 <= i < |issued| ==> FourDigitYear(issued[i].year) }

  lemma ActKeeps(s: Office, a: Action)
    requires OfficeOk(s)
    ensures OfficeOk(Act(s, a))
  {
    LocksKept(s, a);
    if a.CommitOrder? && a.tx in s.open {
      CommitGapless(s, s.open[a.tx]);
    }
  }

  lemma {:induction false} ActsKeep(actions: seq<Action>)
    ensures OfficeOk(Acts(Office(map[], [], map[]), actions))
  {
    if actions != [] {
      ActsKeep(actions[..|actions| - 1]);
      ActKeeps(Acts(Office(map[], [], map[]), actions[..|actions| - 1]), actions[|actions| - 1]);
    }
  }

  /**
   * Over any interleaving of order transactions, rollbacks included, a year's
   * committed numbers are 1, 2, ..., last, in that order, and never pass 99,999.
   */
  lemma GaplessNumbers(actions: seq<Action>, year: int)
    ensures var s := Acts(Office(map[], [], map[]), actions);
            IssuedIn(s.issued, year) == OneTo(Last(s.last, year)) && Last(s.last, year) <= MAX_ORDER_SEQUENCE
  {
    ActsKeep(actions);
  }

  /**
   * Nothing but another open transaction of the same year, or the year's end, stops an
   * allocation: it takes the year's next number, which its commit issues and its rollback frees.
   */
  lemma AllocationIssues(s: Office, tx: nat, year: int)
    requires tx !in s.open && 1000 <= year <= 9999 && (year in s.last ==> s.last[year] < 99999)
    requires forall other :: other in s.open ==> s.open[other].year != year
    ensures var next := (if year in s.last then s.last[year] else 0) + 1;
            var taken := Act(s, Allocate(tx, year));
            && taken == s.(open := s.open[tx := Open(year, next)])
            && Act(taken, CommitOrder(tx)) == Office(s.last[year := next], s.issued + [Open(year, next)], s.open)
            && Act(taken, Rollback(tx)) == s
  {
    var next := (if year in s.last then s.last[year] else 0) + 1;
    assert s.open[tx := Open(year, next)] - {tx} == s.open;
  }

  /** The allocator's class and its machine give out the same numbers. */
  lemma AllocatorAgrees(last: map<int, nat>, year: int, tx: nat, issued: seq<Open>)
    ensures var s := Act(Office(last, issued, map[]), Allocate(tx, year));
            (tx in s.open <==> 1000 <= year <= 9999 && (year in last ==> last[year] < 99999))
            && (tx in s.open ==> s.open[tx] == Open(year, (if year in last then last[year] else 0) + 1))
  {}

  /** An issued number of a year is listed at its own place. */
  lemma {:induction false} IssuedPlace(issued: seq<Open>, i: nat) returns (k: nat)
    requires i < |issued|
    ensures k < |IssuedIn(issued, issued[i].year)| && IssuedIn(issued, issued[i].year)[k] == issued[i].number
    ensures k == |IssuedIn(issued[..i], issued[i].year)|
  {
    var n := |issued| - 1;
    if i == n {
      k := |IssuedIn(issued[..n], issued[n].year)|;
    } else {
      k := IssuedPlace(issued[..n], i);
      assert issued[..n][..i] == issued[..i];
    }
  }

  lemma {:induction false} IssuedGrows(issued: seq<Open>, i: nat, j: nat)
    requires i < j <= |issued|
    ensures |IssuedIn(issued[..i], issued[i].year)| < |IssuedIn(issued[..j], issued[i].year)|
  {
    assert issued[..j][..j - 1] == issued[..j - 1];
    if i < j - 1 {
      IssuedGrows(issued, i, j - 1);
    }
  }

  /** No two committed orders, of any years, share an order number. */
  lemma NumbersUnique(actions: seq<Action>, i: nat, j: nat)
    requires i < j < |Acts(Office(map[], [], map[]), actions).issued|
    ensures var t, u := Acts(Office(map[], [], map[]), actions).issued[i], Acts(Office(map[], [], map[]), actions).issued[j];
            FourDigitYear(t.year) && FourDigitYear(u.year) && OrderNo(t.year, t.number) != OrderNo(u.year, u.number)
  {
    ActsKeep(actions);
    var s := Acts(Office(map[], [], map[]), actions);
    var k := IssuedPlace(s.issued, i);
    var n := IssuedPlace(s.issued, j);
    var t, u := s.issued[i], s.issued[j];
    assert OneTo(Last(s.last, t.year))[k] == k + 1 && OneTo(Last(s.last, u.year))[n] == n + 1;
    OrderNoOrder(t.year, t.number, u.year, u.number);
    if t.year == u.year {
      IssuedGrows(s.issued, i, j);
    }
  }
}
