/**
 * The `PT#H#M#S` subset of ISO 8601:2004 durations (section 4.4.3.2, durations
 * with designators), as matched by the regular expression `/PT(\d+H)?(\d+M)?(\d+S)?/`
 * in lib/api/youtube.js (`parseDuration`) and lib/brain/PatternLearner.js
 * (`getSeconds`). The expression is not anchored: it matches at the first "PT"
 * in the string, and each optional group takes a maximal run of digits followed
 * by its designator letter, or nothing.
 */
module Duration {
  import opened Wrappers
  import opened Text

  /** The duration designator "P" followed by the time designator "T". */
  const TimePrefix: string := "PT"

  /** The length of the run of decimal digits starting at `pos`. */
  function DigitRun(s: string, pos: nat): (n: nat)
    requires pos <= |s|
    ensures pos + n <= |s|
    ensures forall i :: pos <= i < pos + n ==> IsDigit(s[i])
    ensures pos + n == |s| || !IsDigit(s[pos + n])
    decreases |s| - pos
  {
    if pos < |s| && IsDigit(s[pos]) then 1 + DigitRun(s, pos + 1) else 0
  }

  /** What an optional group `(\d+X)?` matched: its number, if any, and where matching continues. */
  datatype GroupMatch = GroupMatch(value: Option<nat>, next: nat)

  /** The group `(\d+X)?`, with `X` the `designator`, tried at `pos`. */
  function MatchGroup(s: string, pos: nat, designator: char): (g: GroupMatch)
    requires pos <= |s|
    ensures pos <= g.next <= |s|
    ensures g.value.None? <==> g.next == pos
  {
    var n := DigitRun(s, pos);
    if n > 0 && pos + n < |s| && s[pos + n] == designator then
      assert AllDigits(s[pos..pos + n]);
      GroupMatch(Some(DigitsValue(s[pos..pos + n])), pos + n + 1)
    else GroupMatch(None, pos)
  }

  /** The three capture groups of a match; `None` for a group that did not take part. */
  datatype Components = Components(hours: Option<nat>, minutes: Option<nat>, seconds: Option<nat>)

  /** `iso.match(/PT(\d+H)?(\d+M)?(\d+S)?/)`; `None` for `null` (no match). */
  function MatchDuration(iso: string): (r: Option<Components>)
    ensures r.None? <==> !Contains(iso, TimePrefix)
  {
    match IndexOf(iso, TimePrefix)
    case None => None
    case Some(i) =>
      var h := MatchGroup(iso, i + 2, 'H');
      var m := MatchGroup(iso, h.next, 'M');
      var sec := MatchGroup(iso, m.next, 'S');
      Some(Components(h.value, m.value, sec.value))
  }

  /** `hours * 3600 + minutes * 60 + seconds`, each `parseInt(group) || 0`. */
  function TotalSeconds(c: Components): nat {
    c.hours.GetOr(0) * 3600 + c.minutes.GetOr(0) * 60 + c.seconds.GetOr(0)
  }

  /**
   * `parseDuration` (lib/api/youtube.js): 0 for a missing or empty string and
   * for a string with no match; otherwise the total number of seconds.
   */
  function ParseDuration(iso: Option<string>): (r: nat)
    ensures iso.None? ==> r == 0
    ensures iso.Some? && !Contains(iso.value, TimePrefix) ==> r == 0
    ensures iso.Some? && Contains(iso.value, TimePrefix) ==> r == TotalSeconds(MatchDuration(iso.value).value)
  {
    if iso.None? || iso.value == "" then 0
    else match MatchDuration(iso.value)
      case None => 0
      case Some(c) => TotalSeconds(c)
  }

  /**
   * `getSeconds` (lib/brain/PatternLearner.js): the same arithmetic, but with
   * no guard, so a missing string or one without a match throws a TypeError.
   */
  function GetSeconds(iso: Option<string>): (r: Try<nat>)
    ensures r.Thrown? <==> iso.None? || !Contains(iso.value, TimePrefix)
    ensures r.Ok? ==> r.value == ParseDuration(iso)
  {
    if iso.None? then Thrown("Cannot read properties of undefined (reading 'match')")
    else match MatchDuration(iso.value)
      case None => Thrown("Cannot read properties of null (reading '1')")
      case Some(c) => Ok(TotalSeconds(c))
  }

  // ---------------------------------------------------------------------------
  // Writing a duration, and reading it back

  /** One designated component: its numeral followed by its designator, or nothing. */
  function Designated(v: Option<nat>, designator: char): string {
    if v.None? then "" else NatToString(v.value) + [designator]
  }

  /** The `PT#H#M#S` form of a duration; an absent component is omitted. */
  function FormatDuration(c: Components): string {
    TimePrefix + Designated(c.hours, 'H') + Designated(c.minutes, 'M') + Designated(c.seconds, 'S')
  }

  lemma {:induction false} DigitRunExact(s: string, pos: nat, n: nat)
    requires pos + n <= |s|
    requires forall i :: pos <= i < pos + n ==> IsDigit(s[i])
    requires pos + n == |s| || !IsDigit(s[pos + n])
    ensures DigitRun(s, pos) == n
    decreases n
  {
    if n > 0 {
      DigitRunExact(s, pos + 1, n - 1);
    }
  }

  /** A numeral followed by a non-digit is read as one run of digits, with its value. */
  lemma NumeralAt(s: string, pos: nat, w: nat, e: char, tail: string)
    requires pos <= |s| && s[pos..] == NatToString(w) + [e] + tail
    requires !IsDigit(e)
    ensures DigitRun(s, pos) == |NatToString(w)|
    ensures pos + |NatToString(w)| < |s| && s[pos + |NatToString(w)|] == e
    ensures s[pos..pos + |NatToString(w)|] == NatToString(w)
  {
    var k := |NatToString(w)|;
    assert s[pos..][k] == e;
    forall i | pos <= i < pos + k ensures IsDigit(s[i]) {
      assert s[i] == s[pos..][i - pos] == NatToString(w)[i - pos];
    }
    DigitRunExact(s, pos, k);
    assert s[pos..pos + k] == s[pos..][..k];
  }

  /**
   * A group reads back the component written at `pos`; an absent component
   * matches nothing, provided what follows is not a numeral with this group's designator.
   */
  lemma GroupReadsDesignated(s: string, pos: nat, v: Option<nat>, d: char, rest: string)
    requires pos <= |s| && s[pos..] == Designated(v, d) + rest
    requires !IsDigit(d)
    requires v.None? ==> rest == [] || exists w: nat, e: char, t: string ::
      rest == NatToString(w) + [e] + t && e != d && !IsDigit(e)
    ensures MatchGroup(s, pos, d) == GroupMatch(v, pos + |Designated(v, d)|)
  {
    if v.Some? {
      var k := |NatToString(v.value)|;
      NumeralAt(s, pos, v.value, d, rest);
      NatToStringRoundTrip(v.value);
      assert MatchGroup(s, pos, d) == GroupMatch(Some(v.value), pos + k + 1);
    } else if rest == [] {
      assert pos == |s|;
      assert DigitRun(s, pos) == 0;
    } else {
      var w: nat, e: char, t: string :| rest == NatToString(w) + [e] + t && e != d && !IsDigit(e);
      NumeralAt(s, pos, w, e, t);
      assert MatchGroup(s, pos, d) == GroupMatch(None, pos);
    }
  }

  lemma StartsWithPT(s: string)
    requires |s| >= 2 && s[..2] == TimePrefix
    ensures IndexOf(s, TimePrefix) == Some(0)
  {
    assert s[0..2] == TimePrefix;
  }

  lemma FormattedStartsWithPT(c: Components)
    ensures IndexOf(FormatDuration(c), TimePrefix) == Some(0)
  {
    StartsWithPT(FormatDuration(c));
  }

  lemma SecondsGroupOfFormatted(c: Components)
    ensures 2 + |Designated(c.hours, 'H')| + |Designated(c.minutes, 'M')| <= |FormatDuration(c)|
    ensures MatchGroup(FormatDuration(c), 2 + |Designated(c.hours, 'H')| + |Designated(c.minutes, 'M')|, 'S').value == c.seconds
  {
    var a, b, z := Designated(c.hours, 'H'), Designated(c.minutes, 'M'), Designated(c.seconds, 'S');
    var s := FormatDuration(c);
    assert s[2 + |a| + |b|..] == z + "";
    GroupReadsDesignated(FormatDuration(c), 2 + |Designated(c.hours, 'H')| + |Designated(c.minutes, 'M')|, c.seconds, 'S', "");
  }

  lemma MinutesGroupOfFormatted(c: Components)
    ensures 2 + |Designated(c.hours, 'H')| <= |FormatDuration(c)|
    ensures MatchGroup(FormatDuration(c), 2 + |Designated(c.hours, 'H')|, 'M')
         == GroupMatch(c.minutes, 2 + |Designated(c.hours, 'H')| + |Designated(c.minutes, 'M')|)
  {
    var a, b, z := Designated(c.hours, 'H'), Designated(c.minutes, 'M'), Designated(c.seconds, 'S');
    var s := FormatDuration(c);
    assert s[2 + |a|..] == b + z;
    if c.minutes.None? && c.seconds.Some? {
      assert z == NatToString(c.seconds.value) + ['S'] + "";
    }
    GroupReadsDesignated(FormatDuration(c), 2 + |Designated(c.hours, 'H')|, c.minutes, 'M', Designated(c.seconds, 'S'));
  }

  lemma HoursGroupOfFormatted(c: Components)
    ensures 2 <= |FormatDuration(c)|
    ensures MatchGroup(FormatDuration(c), 2, 'H') == GroupMatch(c.hours, 2 + |Designated(c.hours, 'H')|)
  {
    var a, b, z := Designated(c.hours, 'H'), Designated(c.minutes, 'M'), Designated(c.seconds, 'S');
    var s := FormatDuration(c);
    assert s[2..] == a + (b + z);
    if c.hours.None? {
      if c.minutes.Some? {
        assert b + z == NatToString(c.minutes.value) + ['M'] + z && !IsDigit('M');
        assert exists w: nat, e: char, t: string :: b + z == NatToString(w) + [e] + t && e != 'H' && !IsDigit(e);
      } else if c.seconds.Some? {
        assert b == "";
        assert b + z == NatToString(c.seconds.value) + ['S'] + "" && !IsDigit('S');
        assert exists w: nat, e: char, t: string :: b + z == NatToString(w) + [e] + t && e != 'H' && !IsDigit(e);
      } else {
        assert b + z == [];
      }
    }
    GroupReadsDesignated(FormatDuration(c), 2, c.hours, 'H', Designated(c.minutes, 'M') + Designated(c.seconds, 'S'));
  }

  /** A string starting with "PT" whose three groups read `c`, each where the previous one ends, matches as `c`. */
  lemma MatchDurationOfGroups(s: string, c: Components, p1: nat, p2: nat)
    requires IndexOf(s, TimePrefix) == Some(0) && 2 <= |s| && p2 <= |s|
    requires MatchGroup(s, 2, 'H') == GroupMatch(c.hours, p1)
    requires MatchGroup(s, p1, 'M') == GroupMatch(c.minutes, p2)
    requires MatchGroup(s, p2, 'S').value == c.seconds
    ensures MatchDuration(s) == Some(c)
  {
  }

  /** Reading a written duration gives back exactly its components. */
  lemma MatchFormatted(c: Components)
    ensures MatchDuration(FormatDuration(c)) == Some(c)
  {
    FormattedStartsWithPT(c);
    HoursGroupOfFormatted(c);
    MinutesGroupOfFormatted(c);
    SecondsGroupOfFormatted(c);
    MatchDurationOfGroups(FormatDuration(c), c,
      2 + |Designated(c.hours, 'H')|,
      2 + |Designated(c.hours, 'H')| + |Designated(c.minutes, 'M')|);
  }

  /**
   * Both parsers give `hours * 3600 + minutes * 60 + seconds` for a written
   * duration, counting an absent component as 0.
   */
  lemma ParseFormatted(h: Option<nat>, m: Option<nat>, sec: Option<nat>)
    ensures ParseDuration(Some(FormatDuration(Components(h, m, sec))))
         == h.GetOr(0) * 3600 + m.GetOr(0) * 60 + sec.GetOr(0)
    ensures GetSeconds(Some(FormatDuration(Components(h, m, sec))))
         == Ok(h.GetOr(0) * 3600 + m.GetOr(0) * 60 + sec.GetOr(0))
  {
    MatchFormatted(Components(h, m, sec));
  }

  /** "P1DT2H" (one day, two hours) has no "PT", so it reads as 0 seconds, and getSeconds throws. */
  lemma DayDesignatorNotMatched()
    ensures ParseDuration(Some("P1DT2H")) == 0
    ensures GetSeconds(Some("P1DT2H")).Thrown?
  {
    var s := "P1DT2H";
    assert s[0..2] != TimePrefix by { assert s[1] == '1'; }
    assert s[1..3] != TimePrefix by { assert s[1] == '1'; }
    assert s[2..4] != TimePrefix by { assert s[2] == 'D'; }
    assert s[3..5] != TimePrefix by { assert s[3] == 'T'; }
    assert s[4..6] != TimePrefix by { assert s[4] == '2'; }
    assert IndexOfFrom(s, TimePrefix, 5) == None;
    assert IndexOf(s, TimePrefix) == None;
  }
}
