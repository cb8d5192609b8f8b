/** Date strings cut from ISO-8601 timestamps.

    Three components derive a calendar date from a timestamp with
    `toISOString().split('T')[0]`: the part of the string before its first
    'T', or the whole string when it has no 'T'. The timestamp itself comes
    from the browser clock and is a parameter everywhere in this model. */
module IsoDates {

  /** `s.split('T')[0]`. The three ensures clauses determine the result:
      it is the longest prefix of `s` that holds no 'T'. */
  function DatePart(s: string): (d: string)
    ensures d <= s
    ensures 'T' !in d
    ensures |d| < |s| ==> s[|d|] == 'T'
  {
    if s == [] || s[0] == 'T' then [] else [s[0]] + DatePart(s[1..])
  }

  /** For a timestamp shaped `day + "T" + time`, whose date part holds no
      'T' (as with "2024-01-15T08:30:00.000Z"), the date part is `day`. */
  lemma {:induction false} DatePartOfTimestamp(day: string, time: string)
    requires 'T' !in day
    ensures DatePart(day + "T" + time) == day
  {
    if day != [] {
      assert day[0] != 'T';
      assert (day + "T" + time)[1..] == day[1..] + "T" + time;
      DatePartOfTimestamp(day[1..], time);
    }
  }
}
