/** The order list of the order-selection screen (OrderSelectionScreen.tsx):
    the orders the chosen action can work on, and how the creation time of an
    order is rendered in the table. */
module OrderSelection {
  import opened Wrappers
  import opened Text
  import opened Seqs
  import opened Domain

  /** The action chosen on the previous screen, or None (null) before one is chosen. */
  function FilteredOrders(orders: seq<Order>, action: Option<Action>): seq<Order> {
    match action
    case None => []
    case Some(Take) => Filter(orders, IsRequested)
    case Some(Return) => Filter(orders, IsInProgress)
  }

  predicate IsRequested(o: Order) { o.status == Requested }

  predicate IsInProgress(o: Order) { o.status == InProgress }

  /** No action chosen: nothing to select. */
  lemma NoActionNoOrders(orders: seq<Order>)
    ensures FilteredOrders(orders, None) == []
  {
  }

  /** For a chosen action the list holds exactly the orders whose status is the
      one that action works on ('requested' for take, 'in_progress' for return),
      each as often as in the input, and in their original order. */
  lemma FilteredByStatus(orders: seq<Order>, a: Action)
    ensures var r := FilteredOrders(orders, Some(a));
      IsSubsequence(r, orders) &&
      (forall i :: 0 <= i < |r| ==> r[i].status == StatusFor(a)) &&
      (forall o :: multiset(r)[o] == if o.status == StatusFor(a) then multiset(orders)[o] else 0) &&
      (forall o :: o in r <==> o in orders && o.status == StatusFor(a))
  {
    match a
    case Take => FilterFacts(orders, IsRequested);
    case Return => FilterFacts(orders, IsInProgress);
  }

  /** Whatever the action, the list is a subsequence of the orders and no longer. */
  lemma FilteredIsSubsequence(orders: seq<Order>, action: Option<Action>)
    ensures IsSubsequence(FilteredOrders(orders, action), orders)
    ensures |FilteredOrders(orders, action)| <= |orders|
  {
    if action.Some? {
      FilteredByStatus(orders, action.value);
      SubsequenceIsShorter(FilteredOrders(orders, action), orders);
    }
  }

  /** The calendar fields `new Date(created_at)` yields in local time: day of
      month, zero-based month, full year, hours and minutes. */
  datatype DateTime = DateTime(year: int, month0: nat, day: nat, hours: nat, minutes: nat)

  predicate ValidDateTime(t: DateTime) {
    1 <= t.day <= 31 && t.month0 < 12 && t.hours < 24 && t.minutes < 60
  }

  /** String(n).padStart(2, '0'). */
  function Pad2(n: nat): string {
    PadStart(NatToString(n), 2, '0')
  }

  /** formatDate: DD.MM.YYYY with the month shifted to 1-based. */
  function FormatDate(t: DateTime): string {
    Pad2(t.day) + "." + Pad2(t.month0 + 1) + "." + IntToString(t.year)
  }

  /** formatTime: HH:MM. */
  function FormatTime(t: DateTime): string {
    Pad2(t.hours) + ":" + Pad2(t.minutes)
  }

  /** A rendered date has two digits of day, a dot, two digits of the 1-based
      month, a dot, and the year; each field reads back as its number. */
  lemma FormatDateShape(t: DateTime)
    requires ValidDateTime(t)
    ensures var s := FormatDate(t);
      |s| >= 7 && s[2] == '.' && s[5] == '.' &&
      AllDigits(s[..2]) && DigitsValue(s[..2]) == t.day &&
      AllDigits(s[3..5]) && DigitsValue(s[3..5]) == t.month0 + 1 &&
      s[6..] == IntToString(t.year)
  {
    var d, m, y := Pad2(t.day), Pad2(t.month0 + 1), IntToString(t.year);
    assert AllDigits(d) && DigitsValue(d) == t.day && |d| == 2 by {
      TwoDigits(t.day);
    }
    assert AllDigits(m) && DigitsValue(m) == t.month0 + 1 && |m| == 2 by {
      TwoDigits(t.month0 + 1);
    }
    assert |y| >= 1;
    var s := FormatDate(t);
    assert s == d + "." + m + "." + y;
    assert |s| >= 7 && s[2] == '.' && s[5] == '.' && s[..2] == d && s[3..5] == m && s[6..] == y by {
      DateFields(d, m, y);
    }
  }

  /** A rendered time is exactly five characters, HH:MM, reading back as the
      hours and minutes. */
  lemma FormatTimeShape(t: DateTime)
    requires ValidDateTime(t)
    ensures var s := FormatTime(t);
      |s| == 5 && s[2] == ':' &&
      AllDigits(s[..2]) && DigitsValue(s[..2]) == t.hours &&
      AllDigits(s[3..]) && DigitsValue(s[3..]) == t.minutes
  {
    TwoDigits(t.hours);
    TwoDigits(t.minutes);
    Fields(Pad2(t.hours), ":", Pad2(t.minutes));
  }

  /** Two two-character fields and a non-empty one joined with dots, cut back out. */
  lemma DateFields(d: string, m: string, y: string)
    requires |d| == 2 && |m| == 2 && |y| >= 1
    ensures var s := d + "." + m + "." + y;
      |s| >= 7 && s[2] == '.' && s[5] == '.' && s[..2] == d && s[3..5] == m && s[6..] == y
  {
    var dm := d + "." + m;
    Fields(dm, ".", y);
    Fields(d, ".", m);
    var s := dm + "." + y;
    assert s[..5] == dm;
    assert s[..2] == dm[..2];
    assert s[3..5] == dm[3..5];
  }

  /** The parts of a string joined with a separator, cut back out. */
  lemma Fields(a: string, sep: string, b: string)
    ensures (a + sep + b)[..|a|] == a && (a + sep + b)[|a|..|a| + |sep|] == sep && (a + sep + b)[|a| + |sep|..] == b
  {
  }
}
