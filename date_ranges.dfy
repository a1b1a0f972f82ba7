/** The named relative date ranges shared by `TickSighting::filter` and
    `MapController::filterByDateRange`: a token selects a window of time
    measured back from "now", with inclusive bounds. */
module DateRanges {
  import opened Base

  /** `[start, end]`; a missing end leaves the window open towards the future. */
  datatype Window = Window(start: Option<Timestamp>, end: Option<Timestamp>)

  /** The seven recognised tokens. */
  const Tokens: set<string> :=
    {"7_days", "30_days", "90_days", "6_months", "6_12_months", "12m_5y", "5_15y"}

  /** The tokens that set only a lower bound. */
  const LowerOnlyTokens: set<string> := {"7_days", "30_days", "90_days", "6_months"}

  /** The tokens that set both bounds. */
  const TwoSidedTokens: set<string> := {"6_12_months", "12m_5y", "5_15y"}

  /** The `switch` over the token; `None` is the `default` branch (no date filtering). */
  function WindowFor(token: string, now: Timestamp, cal: Calendar): (w: Option<Window>)
    ensures w.Some? <==> token in Tokens
    ensures w.Some? ==> w.value.start.Some?
    ensures w.Some? ==> (w.value.end.None? <==> token in LowerOnlyTokens)
  {
    match token
    case "7_days" => Some(Window(Some(cal.back(now, Days(7))), None))
    case "30_days" => Some(Window(Some(cal.back(now, Days(30))), None))
    case "90_days" => Some(Window(Some(cal.back(now, Days(90))), None))
    case "6_months" => Some(Window(Some(cal.back(now, Months(6))), None))
    case "6_12_months" => Some(Window(Some(cal.back(now, Months(12))), Some(cal.back(now, Months(6)))))
    case "12m_5y" => Some(Window(Some(cal.back(now, Years(5))), Some(cal.back(now, Months(12)))))
    case "5_15y" => Some(Window(Some(cal.back(now, Years(15))), Some(cal.back(now, Years(5)))))
    case _ => None
  }

  /** Each two-sided window starts strictly before it ends, given only that
      going back further in months lands earlier. */
  lemma TwoSidedWindowsAreProper(token: string, now: Timestamp, cal: Calendar)
    requires MonthsBackOrdered(cal)
    requires token in TwoSidedTokens
    ensures var w := WindowFor(token, now, cal);
      w.Some? && w.value.start.Some? && w.value.end.Some? &&
      w.value.start.value < w.value.end.value
  {
    var (a, b) :=
      if token == "6_12_months" then (Months(6), Months(12))
      else if token == "12m_5y" then (Months(12), Years(5))
      else (Years(5), Years(15));
    assert MonthSpan(a) < MonthSpan(b);
    assert cal.back(now, b) < cal.back(now, a);
  }

  /** The inclusive bound checks `$dt < $start` and `$dt > $end` both fail. */
  predicate InWindow(w: Window, t: Timestamp)
  {
    (w.start.Some? ==> w.start.value <= t) && (w.end.Some? ==> t <= w.end.value)
  }

  /** A record passes an active date filter: its date is non-empty (PHP
      truthiness), it parses, and the parsed time lies in the window. */
  predicate DatePasses(s: Sighting, w: Window, cal: Calendar)
  {
    Filled(s.date) && cal.parse(s.date.value).Some? && InWindow(w, cal.parse(s.date.value).value)
  }
}
