/**
 * The containers the playout fills: events, traces with a case identifier,
 * and the log; plus the decimal rendering used for case identifiers.
 */
module EventLogs {

  /** An event: its activity and its timestamp, kept as seconds since the epoch. */
  datatype Event = Event(activity: string, timestamp: int)

  /** A trace: its case identifier attribute and its events in order. */
  datatype Trace = Trace(caseId: string, events: seq<Event>)

  type EventLog = seq<Trace>

  /** The events of a log in emission order: trace after trace. */
  function AllEvents(log: EventLog): seq<Event>
  {
    if log == [] then [] else AllEvents(log[..|log| - 1]) + log[|log| - 1].events
  }

  lemma AllEventsAppend(log: EventLog, t: Trace)
    ensures AllEvents(log + [t]) == AllEvents(log) + t.events
  {
    assert (log + [t])[..|log|] == log;
  }

  /** Timestamps `base`, `base + 1`, ... in order. */
  ghost predicate Consecutive(es: seq<Event>, base: int)
  {
    forall k | 0 <= k < |es| :: es[k].timestamp == base + k
  }

  ghost predicate StrictlyIncreasing(es: seq<Event>)
  {
    forall i, j | 0 <= i < j < |es| :: es[i].timestamp < es[j].timestamp
  }

  /** Decimal digits, as Python's `str` writes a non-negative integer. */
  function DigitChar(d: nat): (c: char)
    requires d < 10
    ensures '0' <= c <= '9' && c as int - '0' as int == d
  {
    (d + '0' as int) as char
  }

  /** The decimal numeral of `n`, as Python's `str` writes it: no leading zero except in `0` itself. */
  function NatToString(n: nat): (s: string)
    ensures |s| > 0
    ensures forall i | 0 <= i < |s| :: '0' <= s[i] <= '9'
    ensures s[0] == '0' <==> n == 0
    ensures |s| > 1 ==> s[0] != '0'
  {
    if n < 10 then [DigitChar(n)] else NatToString(n / 10) + [DigitChar(n % 10)]
  }

  /** Reads a string of decimal digits back as a number. */
  function ParseDecimal(s: string): nat
    requires forall i | 0 <= i < |s| :: '0' <= s[i] <= '9'
  {
    if s == [] then 0
    else ParseDecimal(s[..|s| - 1]) * 10 + (s[|s| - 1] as int - '0' as int)
  }

  /** Reading a case identifier back yields its index. */
  lemma {:induction false} ParseNatToString(n: nat)
    ensures ParseDecimal(NatToString(n)) == n
  {
    var s := NatToString(n);
    if n >= 10 {
      ParseNatToString(n / 10);
      assert s[..|s| - 1] == NatToString(n / 10);
    }
  }

  /** Distinct indices get distinct case identifiers. */
  lemma NatToStringInjective(a: nat, b: nat)
    ensures NatToString(a) == NatToString(b) <==> a == b
  {
    ParseNatToString(a);
    ParseNatToString(b);
  }
}
