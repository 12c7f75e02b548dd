/**
 * The subscription description sent as 'sub_desc': a recurrence rule in the
 * syntax of section 3.3.10 of RFC 5545 ("RRULE:FREQ=...;INTERVAL=...",
 * with an optional ";UNTIL=..."). `Parse` reads such a rule back and serves
 * as the independent check that the description carries exactly the
 * frequency, the interval and the end date it was built from.
 */
module Subscription {
  import opened Php

  const RULE_PREFIX := "RRULE:FREQ="
  const INTERVAL_PART := "INTERVAL="
  const UNTIL_PART := "UNTIL="

  /** The recurrence the subscription handler reports for an order. */
  datatype Rule = Rule(frequency: string, interval: string, until: Option<string>)

  /** Whether an end date is present, as `isset($info['end_date']) && $info['end_date']` reads it. */
  predicate HasEnd(endDate: Option<string>) {
    endDate.Some? && Truthy(endDate.value)
  }

  /** The ";UNTIL=..." part, present only with an end date. */
  function UntilSuffix(endDate: Option<string>): string {
    if HasEnd(endDate) then ";" + (UNTIL_PART + endDate.value) else ""
  }

  /** The 'sub_desc' string built from the handler's frequency, interval and end date. */
  function Describe(frequency: string, interval: string, endDate: Option<string>): string {
    RULE_PREFIX + (frequency + (";" + (INTERVAL_PART + (interval + UntilSuffix(endDate)))))
  }

  /** Position of the first `c` in `s`, or `|s|` when there is none. */
  function IndexOf(s: string, c: char): (k: nat)
    ensures k <= |s|
    ensures forall i :: 0 <= i < k ==> s[i] != c
    ensures k < |s| ==> s[k] == c
  {
    if s == [] then 0 else if s[0] == c then 0 else 1 + IndexOf(s[1..], c)
  }

  predicate StartsWith(s: string, prefix: string) {
    |prefix| <= |s| && s[..|prefix|] == prefix
  }

  /** Reads a description back into its rule; None when it is not of the form `Describe` builds. */
  function Parse(s: string): Option<Rule> {
    if StartsWith(s, RULE_PREFIX) then ParseFrequency(s[|RULE_PREFIX|..]) else None
  }

  /** The frequency runs up to the first ';'. */
  function ParseFrequency(r: string): Option<Rule> {
    var k := IndexOf(r, ';');
    if k == |r| then None else ParseInterval(r[..k], r[k + 1..])
  }

  function ParseInterval(frequency: string, r: string): Option<Rule> {
    if StartsWith(r, INTERVAL_PART) then ParseUntil(frequency, r[|INTERVAL_PART|..]) else None
  }

  /** The interval runs up to the next ';' or the end; what follows must be a non-empty UNTIL part. */
  function ParseUntil(frequency: string, r: string): Option<Rule> {
    var j := IndexOf(r, ';');
    if j == |r| then Some(Rule(frequency, r, None))
    else
      var tail := r[j + 1..];
      if StartsWith(tail, UNTIL_PART) && Truthy(tail[|UNTIL_PART|..])
      then Some(Rule(frequency, r[..j], Some(tail[|UNTIL_PART|..])))
      else None
  }

  lemma StartsWithConcat(p: string, x: string)
    ensures StartsWith(p + x, p) && (p + x)[|p|..] == x
  {
    assert (p + x)[..|p|] == p;
  }

  /** A prefix without `c` only shifts the position of the first `c`. */
  lemma {:induction false} IndexOfSkip(a: string, rest: string, c: char)
    requires c !in a
    ensures IndexOf(a + rest, c) == |a| + IndexOf(rest, c)
  {
    if a != [] {
      assert (a + rest)[0] == a[0];
      assert (a + rest)[1..] == a[1..] + rest;
      IndexOfSkip(a[1..], rest, c);
    } else {
      assert a + rest == rest;
    }
  }

  /** Splitting `a + [c] + b` at its first `c` gives back `a` and `b` when `a` has no `c`. */
  lemma SplitAtFirst(a: string, c: char, b: string)
    requires c !in a
    ensures IndexOf(a + ([c] + b), c) == |a|
    ensures (a + ([c] + b))[..|a|] == a && (a + ([c] + b))[|a| + 1..] == b
  {
    assert IndexOf([c] + b, c) == 0 by { assert ([c] + b)[0] == c; }
    IndexOfSkip(a, [c] + b, c);
    var s := a + ([c] + b);
    assert s[..|a|] == a;
    assert s[|a| + 1..] == b;
  }

  lemma ParseUntilRoundTrip(frequency: string, interval: string, endDate: Option<string>)
    requires ';' !in interval
    ensures ParseUntil(frequency, interval + UntilSuffix(endDate))
            == Some(Rule(frequency, interval, if HasEnd(endDate) then endDate else None))
  {
    if HasEnd(endDate) {
      var tail := UNTIL_PART + endDate.value;
      var r := interval + UntilSuffix(endDate);
      assert r == interval + ([';'] + tail);
      SplitAtFirst(interval, ';', tail);
      StartsWithConcat(UNTIL_PART, endDate.value);
      assert r[|interval| + 1..] == tail;
      assert ParseUntil(frequency, r) == Some(Rule(frequency, interval, Some(endDate.value)));
    } else {
      assert interval + "" == interval;
      assert IndexOf(interval, ';') == |interval|;
    }
  }

  lemma ParseIntervalRoundTrip(frequency: string, interval: string, endDate: Option<string>)
    requires ';' !in interval
    ensures ParseInterval(frequency, INTERVAL_PART + (interval + UntilSuffix(endDate)))
            == Some(Rule(frequency, interval, if HasEnd(endDate) then endDate else None))
  {
    StartsWithConcat(INTERVAL_PART, interval + UntilSuffix(endDate));
    ParseUntilRoundTrip(frequency, interval, endDate);
  }

  lemma ParseFrequencyRoundTrip(frequency: string, rest: string)
    requires ';' !in frequency
    ensures ParseFrequency(frequency + (";" + rest)) == ParseInterval(frequency, rest)
  {
    SplitAtFirst(frequency, ';', rest);
  }

  /**
   * The description determines the rule: reading it back gives the
   * frequency, the interval and, exactly when an end date is set and
   * non-empty, that end date. Frequency and interval are plain tokens
   * without ';'.
   */
  lemma {:induction false} DescribeRoundTrip(frequency: string, interval: string, endDate: Option<string>)
    requires ';' !in frequency && ';' !in interval
    ensures Parse(Describe(frequency, interval, endDate))
            == Some(Rule(frequency, interval, if HasEnd(endDate) then endDate else None))
  {
    var rest := INTERVAL_PART + (interval + UntilSuffix(endDate));
    var afterPrefix := frequency + (";" + rest);
    StartsWithConcat(RULE_PREFIX, afterPrefix);
    ParseFrequencyRoundTrip(frequency, rest);
    ParseIntervalRoundTrip(frequency, interval, endDate);
  }

  /** Two handler reports with the same description agree on frequency, interval and end date. */
  lemma {:induction false} DescribeInjective(a: Rule, b: Rule)
    requires ';' !in a.frequency && ';' !in a.interval
    requires ';' !in b.frequency && ';' !in b.interval
    requires Describe(a.frequency, a.interval, a.until) == Describe(b.frequency, b.interval, b.until)
    ensures a.frequency == b.frequency && a.interval == b.interval
    ensures HasEnd(a.until) == HasEnd(b.until)
    ensures HasEnd(a.until) ==> a.until == b.until
  {
    DescribeRoundTrip(a.frequency, a.interval, a.until);
    DescribeRoundTrip(b.frequency, b.interval, b.until);
  }
}
