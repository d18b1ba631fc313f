/** The report pacing shared by the two HID interfaces (Charger/chrg_if.c
    and Sensor/sens_if.c): while the device is configured, each 1 ms tick
    increments a static uint8_t counter, and when it reaches REPORT_INTERVAL
    one input report is sent and the counter restarts from zero. */
module Pacing {
  import opened CTypes

  /** REPORT_INTERVAL, in ticks. */
  const ReportInterval: nat := 100

  /** One configured tick, `++msCounter >= REPORT_INTERVAL`: the counter
      afterwards, and whether a report is due. */
  function Tick(counter: U8): (r: (U8, bool))
    ensures counter < ReportInterval ==> r.0 < ReportInterval
    ensures counter < ReportInterval ==> (r.1 <==> counter == ReportInterval - 1)
    ensures !r.1 ==> r.0 == (counter + 1) % 0x100
    ensures r.1 ==> r.0 == 0
  {
    var c := (counter + 1) % 0x100;
    if c >= ReportInterval then (0, true) else (c, false)
  }

  /** `n` configured ticks from `counter`: the final counter and the number
      of reports sent. */
  function Ticks(counter: U8, n: nat): (r: (U8, nat))
    decreases n
  {
    if n == 0 then (counter, 0)
    else
      var (next, due) := Tick(counter);
      var (last, sent) := Ticks(next, n - 1);
      (last, sent + if due then 1 else 0)
  }

  /** `n` ticks from a counter in range split counter + n into whole
      intervals (the reports sent) and the counter left over. */
  lemma {:induction false} TicksSplit(counter: U8, n: nat)
    requires counter < ReportInterval
    ensures Ticks(counter, n).0 < ReportInterval
    ensures counter + n == Ticks(counter, n).1 * ReportInterval + Ticks(counter, n).0
    decreases n
  {
    if n > 0 {
      var t := Tick(counter);
      TicksSplit(t.0, n - 1);
      if t.1 {
        assert counter == ReportInterval - 1 && t.0 == 0;
      } else {
        assert t.0 == counter + 1;
      }
    }
  }

  /** Exactly one report every REPORT_INTERVAL configured ticks: from a
      counter in range, `n` ticks send (counter + n) / 100 reports and leave
      the counter at (counter + n) % 100. */
  lemma OneReportPerInterval(counter: U8, n: nat)
    requires counter < ReportInterval
    ensures Ticks(counter, n) == ((counter + n) % ReportInterval, (counter + n) / ReportInterval)
  {
    TicksSplit(counter, n);
  }
}
