/** The four figures above the order dashboard: active, overdue, upcoming and
    completed orders, judged against the current time. */
module OrderStats {
  import opened Records
  import opened Seqs
  import OrderDashboard

  /** `toTimestamp`: null is 0, a number is itself, a text is parsed. */
  function ToTimestamp(d: DateValue, locale: Locale): (r: int)
    ensures d.NoDate? ==> r == 0
    ensures d.DateNumber? ==> r == d.millis
  {
    match d
    case NoDate => 0
    case DateNumber(n) => n
    case DateText(t) => locale.parseDate(t)
  }

  /** The status is neither `completed` nor `cancelled`. */
  predicate IsActive(o: Order) {
    o.status !in ["completed", "cancelled"]
  }

  /** Ended before `now` and still active. */
  predicate IsOverdue(o: Order, now: int, locale: Locale) {
    ToTimestamp(o.endDate, locale) < now && IsActive(o)
  }

  /** Starts after `now` and is `new` or `open`. */
  predicate IsUpcoming(o: Order, now: int, locale: Locale) {
    ToTimestamp(o.startDate, locale) > now && (o.status == "new" || o.status == "open")
  }

  predicate IsCompleted(o: Order) {
    o.status == "completed"
  }

  datatype Figures = Figures(active: nat, overdue: nat, upcoming: nat, completed: nat)

  /** The four counts, with `Date.now()` passed in as `now`. */
  function OrderFigures(orders: seq<Order>, now: int, locale: Locale): (r: Figures)
    ensures r.active <= |orders| && r.completed <= |orders|
  {
    Figures(Count(orders, IsActive), Count(orders, o => IsOverdue(o, now, locale)),
            Count(orders, o => IsUpcoming(o, now, locale)), Count(orders, IsCompleted))
  }

  /** Overdue orders are active orders, in the same order. */
  lemma OverdueAreActive(orders: seq<Order>, now: int, locale: Locale)
    ensures IsSubsequence(Filter(orders, o => IsOverdue(o, now, locale)), Filter(orders, IsActive))
    ensures OrderFigures(orders, now, locale).overdue <= OrderFigures(orders, now, locale).active
  {
    FilterNarrows(orders, o => IsOverdue(o, now, locale), IsActive);
    CountImplies(orders, o => IsOverdue(o, now, locale), IsActive);
  }

  /** Upcoming orders are active orders, in the same order. */
  lemma UpcomingAreActive(orders: seq<Order>, now: int, locale: Locale)
    ensures IsSubsequence(Filter(orders, o => IsUpcoming(o, now, locale)), Filter(orders, IsActive))
    ensures OrderFigures(orders, now, locale).upcoming <= OrderFigures(orders, now, locale).active
  {
    FilterNarrows(orders, o => IsUpcoming(o, now, locale), IsActive);
    CountImplies(orders, o => IsUpcoming(o, now, locale), IsActive);
  }

  /** No order is both completed and active, so the two counts fit in the total. */
  lemma CompletedAndActiveDisjoint(orders: seq<Order>, now: int, locale: Locale)
    ensures forall o :: !(IsCompleted(o) && IsActive(o))
    ensures OrderFigures(orders, now, locale).active + OrderFigures(orders, now, locale).completed <= |orders|
  {
    CountDisjoint(orders, IsActive, IsCompleted);
  }

  /** An active order without an end date counts as ended at time 0, so it is
      overdue whenever `now` is positive. */
  lemma NoEndDateIsOverdue(o: Order, now: int, locale: Locale)
    requires o.endDate.NoDate? && IsActive(o)
    ensures IsOverdue(o, now, locale) <==> now > 0
  {
  }

  /** The timestamp agrees with the dashboard's date sort key, except for an empty
      date text, which the sort counts as 0 and `toTimestamp` parses. */
  lemma TimestampMatchesSortKey(o: Order, locale: Locale)
    requires o.startDate != DateText("")
    ensures ToTimestamp(o.startDate, locale) == OrderDashboard.DateKey(o, locale)
  {
  }
}
