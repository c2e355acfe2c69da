/** The issuing hub (CentroVaccinale): it mints a green pass that starts today
    and expires three months later, and sends it to the record store.

    The hub reads the clock through localtime; here today's broken-down time
    is a parameter. */
module Hub {
  import opened Protocol
  import Store

  /** The fields of `struct tm` the hub uses: day of month (1..31), month
      counted from 0, and years since 1900. */
  datatype Tm = Tm(mday: int, mon: int, year: int)

  /** The ranges localtime guarantees for those fields. */
  predicate LocalTime(t: Tm) {
    1 <= t.mday <= 31 && 0 <= t.mon <= 11
  }

  /** create_start_date: the issue date, with the month made 1-based and the
      year made absolute. It loses nothing of today's date. */
  function StartDate(t: Tm): (d: Date)
    ensures TmOf(d) == t
    ensures LocalTime(t) ==> 1 <= d.month <= 12
  {
    Date(t.mday, t.mon + 1, t.year + 1900)
  }

  /** The broken-down time a civil date comes from. */
  function TmOf(d: Date): Tm {
    Tm(d.day, d.month - 1, d.year - 1900)
  }

  /** create_expire_date: four is added to the 0-based month, then 13, 14 and
      15 are in turn turned into January, February and March of the next year.
      The day is copied unchanged. */
  function ExpireDate(t: Tm): (e: Date)
    ensures e.day == t.mday
    ensures LocalTime(t) && t.mon + 1 <= 9 ==> e == Date(t.mday, t.mon + 1 + 3, t.year + 1900)
    ensures LocalTime(t) && t.mon + 1 >= 10 ==> e == Date(t.mday, t.mon + 1 - 9, t.year + 1900 + 1)
    ensures LocalTime(t) ==> 1 <= e.month <= 12
  {
    var mon := t.mon + 4;
    var year := t.year + 1900;
    var (mon, year) := if mon == 13 then (1, year + 1) else (mon, year);
    var (mon, year) := if mon == 14 then (2, year + 1) else (mon, year);
    var (mon, year) := if mon == 15 then (3, year + 1) else (mon, year);
    Date(t.mday, mon, year)
  }

  /** An independent statement of "three calendar months later": count months
      from year 0, add three, and split the count again. */
  function AddMonths(d: Date, k: nat): (r: Date)
    requires 1 <= d.month <= 12
    ensures 1 <= r.month <= 12
  {
    var total := d.year * 12 + (d.month - 1) + k;
    Date(d.day, total % 12 + 1, total / 12)
  }

  /** The answer_user assembly: the user's card number and the two dates. The
      pass starts today and expires three calendar months later. */
  function Mint(id: Id, t: Tm): (gp: HubGp)
    ensures gp.id == id
    ensures TmOf(gp.start) == t
    ensures LocalTime(t) ==> gp.expire == AddMonths(gp.start, 3) && ChronoLess(gp.start, gp.expire)
  {
    HubGp(id, StartDate(t), ExpireDate(t))
  }

  /** send_GP: role byte '1', then the record. The store files it through its
      create handler. */
  function IssueConnection(gp: HubGp): (c: Connection)
    ensures Store.Dispatch(c.roles) == Store.CreateFlow
    ensures Store.BodyFits(c) && Store.Issues(c, gp.id)
    ensures c.body.gp == gp
  {
    Connection([HubRole], GpBody(gp))
  }

  // Properties of the dates.

  /** The expiry is the start date moved three calendar months on. */
  lemma ExpiryIsThreeMonthsLater(t: Tm)
    requires LocalTime(t)
    ensures ExpireDate(t) == AddMonths(StartDate(t), 3)
  {
  }

  /** The expiry is strictly later than the start, at most one year on. */
  lemma ExpiryAfterStart(t: Tm)
    requires LocalTime(t)
    ensures ChronoLess(StartDate(t), ExpireDate(t))
    ensures 0 <= ExpireDate(t).year - StartDate(t).year <= 1
  {
  }

  /** The day is not clamped to the month's length: 30 November 2024 gives
      30 February 2025. */
  lemma NoDayClamping()
    ensures ExpireDate(Tm(30, 10, 124)) == Date(30, 2, 2025)
  {
  }

  /** Minting on 10 November 2024 expires on 10 February 2025; minting on
      10 January 2024 expires on 10 April 2024. */
  lemma ExpiryExamples()
    ensures StartDate(Tm(10, 10, 124)) == Date(10, 11, 2024)
    ensures ExpireDate(Tm(10, 10, 124)) == Date(10, 2, 2025)
    ensures ExpireDate(Tm(10, 0, 124)) == Date(10, 4, 2024)
  {
  }
}
