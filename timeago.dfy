/**
 * The three `formatTimeAgo` helpers of the dashboard: the agent table's, the right
 * sidebar's (which stops at "Earlier") and the activity feed's short form. Each takes the
 * elapsed milliseconds `now - timestamp`, floors it to minutes, then to hours, then to days.
 */
module TimeAgo {

  const MsPerMinute: nat := 60 * 1000
  const MsPerHour: nat := 60 * MsPerMinute
  const MsPerDay: nat := 24 * MsPerHour

  // ---- `${n}`: a non-negative integer in decimal ----

  predicate IsDigit(c: char) {
    '0' <= c <= '9'
  }

  function DigitChar(d: nat): (c: char)
    requires d < 10
    ensures IsDigit(c) && c as int - '0' as int == d
  {
    ('0' as int + d) as char
  }

  /** The decimal numeral of `n`, without leading zeros. */
  function DecimalString(n: nat): (s: string)
    ensures |s| >= 1 && forall i :: 0 <= i < |s| ==> IsDigit(s[i])
    decreases n
  {
    if n < 10 then [DigitChar(n)] else DecimalString(n / 10) + [DigitChar(n % 10)]
  }

  /** The value of a string of decimal digits. */
  function DecimalValue(s: string): nat
    requires forall i :: 0 <= i < |s| ==> IsDigit(s[i])
    decreases |s|
  {
    if s == [] then 0
    else
      assert IsDigit(s[|s| - 1]);
      DecimalValue(s[..|s| - 1]) * 10 + (s[|s| - 1] as int - '0' as int)
  }

  /** Reading a numeral back gives the number, and only zero is written with a leading '0'. */
  lemma {:induction false} DecimalRoundTrip(n: nat)
    ensures DecimalValue(DecimalString(n)) == n
    ensures DecimalString(n)[0] == '0' ==> n == 0
    decreases n
  {
    if n >= 10 {
      DecimalRoundTrip(n / 10);
      var s := DecimalString(n);
      assert s[..|s| - 1] == DecimalString(n / 10);
      assert s[0] == DecimalString(n / 10)[0];
    }
  }

  /** Different numbers are written differently. */
  lemma DecimalInjective(m: nat, n: nat)
    requires DecimalString(m) == DecimalString(n)
    ensures m == n
  {
    DecimalRoundTrip(m);
    DecimalRoundTrip(n);
  }

  // ---- Floors ----

  /** Flooring to minutes and then to hours (and days) is flooring to hours (and days) directly. */
  lemma NestedFloor(diff: nat)
    ensures diff / MsPerMinute / 60 == diff / MsPerHour
    ensures diff / MsPerMinute / 60 / 24 == diff / MsPerDay
  {
    var h, rh := diff / MsPerHour, diff % MsPerHour;
    assert diff == MsPerHour * h + rh;
    assert diff / MsPerMinute == 60 * h + rh / MsPerMinute;
    var d, rd := diff / MsPerDay, diff % MsPerDay;
    assert diff == MsPerDay * d + rd;
    assert diff / MsPerHour == 24 * d + rd / MsPerHour;
  }

  /** The tests the helpers make on minutes and hours, as bands of elapsed milliseconds. */
  lemma Units(diff: nat)
    ensures var minutes := diff / MsPerMinute;
      && (minutes == 0 <==> diff < MsPerMinute)
      && (minutes == 1 <==> MsPerMinute <= diff < 2 * MsPerMinute)
      && (minutes < 60 <==> diff < MsPerHour)
      && minutes / 60 == diff / MsPerHour
      && (minutes / 60 == 1 <==> MsPerHour <= diff < 2 * MsPerHour)
      && (minutes / 60 < 24 <==> diff < MsPerDay)
      && minutes / 60 / 24 == diff / MsPerDay
  {
    NestedFloor(diff);
  }

  // ---- The agent table ----

  /** `formatTimeAgo` of the agent table: "Just now", or a count with a singular or plural unit. */
  function AgentTableTimeAgo(diff: nat): (r: string)
    ensures r != "" && (r == "Just now" || IsDigit(r[0]))
  {
    var minutes := diff / MsPerMinute;
    if minutes == 0 then "Just now"
    else if minutes == 1 then "1 minute ago"
    else if minutes < 60 then DecimalString(minutes) + " minutes ago"
    else
      var hours := minutes / 60;
      if hours == 1 then "1 hour ago"
      else if hours < 24 then DecimalString(hours) + " hours ago"
      else DecimalString(hours / 24) + " days ago"
  }

  /** The agent table's label in each band of elapsed time. */
  lemma AgentTableBands(diff: nat)
    ensures diff < MsPerMinute ==> AgentTableTimeAgo(diff) == "Just now"
    ensures MsPerMinute <= diff < 2 * MsPerMinute ==> AgentTableTimeAgo(diff) == "1 minute ago"
    ensures 2 * MsPerMinute <= diff < MsPerHour ==>
      AgentTableTimeAgo(diff) == DecimalString(diff / MsPerMinute) + " minutes ago"
    ensures MsPerHour <= diff < 2 * MsPerHour ==> AgentTableTimeAgo(diff) == "1 hour ago"
    ensures 2 * MsPerHour <= diff < MsPerDay ==>
      AgentTableTimeAgo(diff) == DecimalString(diff / MsPerHour) + " hours ago"
    ensures MsPerDay <= diff ==> AgentTableTimeAgo(diff) == DecimalString(diff / MsPerDay) + " days ago"
  {
    Units(diff);
  }

  /** There is no singular for days: anything from 24 up to 48 hours reads "1 days ago". */
  lemma AgentTableOneDays(diff: nat)
    requires MsPerDay <= diff < 2 * MsPerDay
    ensures AgentTableTimeAgo(diff) == "1 days ago"
  {
    Units(diff);
    assert diff / MsPerDay == 1;
    assert DecimalString(1) == "1";
  }

  // ---- The right sidebar ----

  /** `formatTimeAgo` of the sidebar: as the agent table's, but "Earlier" from a day on. */
  function SidebarTimeAgo(diff: nat): (r: string)
    ensures r != "" && (r == "Just now" || r == "Earlier" || IsDigit(r[0]))
  {
    var minutes := diff / MsPerMinute;
    if minutes == 0 then "Just now"
    else if minutes == 1 then "1 minute ago"
    else if minutes < 60 then DecimalString(minutes) + " minutes ago"
    else
      var hours := minutes / 60;
      if hours == 1 then "1 hour ago"
      else if hours < 24 then DecimalString(hours) + " hours ago"
      else "Earlier"
  }

  /** Below a day the sidebar says what the agent table says; from a day on it says "Earlier". */
  lemma SidebarBands(diff: nat)
    ensures diff < MsPerDay ==> SidebarTimeAgo(diff) == AgentTableTimeAgo(diff)
    ensures SidebarTimeAgo(diff) == "Earlier" <==> MsPerDay <= diff
  {
    Units(diff);
    if MsPerMinute <= diff < MsPerDay {
      assert IsDigit(SidebarTimeAgo(diff)[0]);
    }
  }

  // ---- The activity feed ----

  /** `formatTimeAgo` of the activity feed: "Just now", or a count with m, h or d. */
  function FeedTimeAgo(diff: nat): (r: string)
    ensures r != "" && (r == "Just now" || IsDigit(r[0]))
  {
    var minutes := diff / MsPerMinute;
    if minutes == 0 then "Just now"
    else if minutes == 1 then "1m ago"
    else if minutes < 60 then DecimalString(minutes) + "m ago"
    else
      var hours := minutes / 60;
      if hours == 1 then "1h ago"
      else if hours < 24 then DecimalString(hours) + "h ago"
      else DecimalString(hours / 24) + "d ago"
  }

  /**
   * The feed's label is the whole number of the largest unit that fits, with no special
   * case left for one minute or one hour.
   */
  lemma FeedBands(diff: nat)
    ensures diff < MsPerMinute ==> FeedTimeAgo(diff) == "Just now"
    ensures MsPerMinute <= diff < MsPerHour ==> FeedTimeAgo(diff) == DecimalString(diff / MsPerMinute) + "m ago"
    ensures MsPerHour <= diff < MsPerDay ==> FeedTimeAgo(diff) == DecimalString(diff / MsPerHour) + "h ago"
    ensures MsPerDay <= diff ==> FeedTimeAgo(diff) == DecimalString(diff / MsPerDay) + "d ago"
  {
    Units(diff);
    assert DecimalString(1) == "1";
  }

  /** In all three helpers "Just now" means less than a minute: every other label starts with a digit. */
  lemma JustNowMeansUnderAMinute(diff: nat)
    ensures AgentTableTimeAgo(diff) == "Just now" <==> diff < MsPerMinute
    ensures SidebarTimeAgo(diff) == "Just now" <==> diff < MsPerMinute
    ensures FeedTimeAgo(diff) == "Just now" <==> diff < MsPerMinute
  {
    Units(diff);
    assert !IsDigit("Just now"[0]);
  }
}
