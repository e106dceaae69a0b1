/**
 * The clock texts the players show: `m:ss` (watch party and scene
 * navigation) and `h:mm:ss` / `m:ss` (the video player), for a position in
 * whole seconds. A small parser reads such a text back into its numeric
 * fields, so that each format can be checked by a round trip.
 */
module ClockFormat {
  import opened Wrappers
  import opened Text

  /** `${Math.floor(t / 60)}:${Math.floor(t % 60).toString().padStart(2, '0')}`. */
  function FormatMinutesSeconds(t: nat): (r: string)
    ensures ':' in r
  {
    NatToString(t / 60) + ":" + TwoDigits(t % 60)
  }

  /** The video player's text: `h:mm:ss` from one hour on, `m:ss` below. */
  function FormatPlayerTime(t: nat): (r: string)
    ensures ':' in r
  {
    var hours := t / 3600;
    var minutes := (t % 3600) / 60;
    var seconds := t % 60;
    if hours > 0 then NatToString(hours) + ":" + TwoDigits(minutes) + ":" + TwoDigits(seconds)
    else NatToString(minutes) + ":" + TwoDigits(seconds)
  }

  /** Reads each piece as a non-empty digit string. */
  function ParseFields(parts: seq<string>): (r: Option<seq<nat>>)
    ensures r.Some? ==> |r.value| == |parts|
  {
    if parts == [] then Some([])
    else if parts[0] == "" || !IsDigits(parts[0]) then None
    else match ParseFields(parts[1..])
      case None => None
      case Some(rest) => Some([ParseDecimal(parts[0])] + rest)
  }

  /** Reads a clock text `a:b` or `a:b:c` into its numeric fields. */
  function ParseClock(s: string): Option<seq<nat>>
  {
    ParseFields(Split(s, ':'))
  }

  /** The number of seconds a parsed `m:ss` or `h:mm:ss` denotes. */
  function ClockSeconds(fields: seq<nat>): nat
  {
    if |fields| == 2 then 60 * fields[0] + fields[1]
    else if |fields| == 3 then 3600 * fields[0] + 60 * fields[1] + fields[2]
    else 0
  }

  lemma ReadCons(p: string, rest: seq<string>)
    requires p != "" && IsDigits(p) && ParseFields(rest).Some?
    ensures ParseFields([p] + rest) == Some([ParseDecimal(p)] + ParseFields(rest).value)
  {
    assert ([p] + rest)[1..] == rest;
  }

  /** Two digit strings joined with ':' read back as the two numbers. */
  lemma {:induction false} ReadTwo(a: string, b: string)
    requires a != "" && IsDigits(a) && b != "" && IsDigits(b)
    ensures ParseClock(a + ":" + b) == Some([ParseDecimal(a), ParseDecimal(b)])
  {
    DigitsHaveNo(a, ':');
    DigitsHaveNo(b, ':');
    assert a + ":" + b == a + [':'] + b;
    SplitJoin(a, ':', b);
    SplitWithoutSeparator(b, ':');
    assert Split(a + ":" + b, ':') == [a, b];
    assert [b] + [] == [b] && [a] + [b] == [a, b];
    ReadCons(b, []);
    ReadCons(a, [b]);
    assert [ParseDecimal(b)] + [] == [ParseDecimal(b)];
    assert [ParseDecimal(a)] + [ParseDecimal(b)] == [ParseDecimal(a), ParseDecimal(b)];
  }

  /** Three digit strings joined with ':' read back as the three numbers. */
  lemma {:induction false} ReadThree(a: string, b: string, c: string)
    requires a != "" && IsDigits(a) && b != "" && IsDigits(b) && c != "" && IsDigits(c)
    ensures ParseClock(a + ":" + b + ":" + c) == Some([ParseDecimal(a), ParseDecimal(b), ParseDecimal(c)])
  {
    DigitsHaveNo(a, ':');
    DigitsHaveNo(b, ':');
    DigitsHaveNo(c, ':');
    assert a + ":" + b + ":" + c == a + [':'] + (b + [':'] + c);
    SplitJoin(a, ':', b + ":" + c);
    SplitJoin(b, ':', c);
    SplitWithoutSeparator(c, ':');
    assert Split(a + ":" + b + ":" + c, ':') == [a, b, c];
    assert [c] + [] == [c] && [b] + [c] == [b, c] && [a] + [b, c] == [a, b, c];
    ReadCons(c, []);
    ReadCons(b, [c]);
    ReadCons(a, [b, c]);
    assert [ParseDecimal(c)] + [] == [ParseDecimal(c)];
    assert [ParseDecimal(b)] + [ParseDecimal(c)] == [ParseDecimal(b), ParseDecimal(c)];
    assert [ParseDecimal(a)] + [ParseDecimal(b), ParseDecimal(c)] == [ParseDecimal(a), ParseDecimal(b), ParseDecimal(c)];
  }

  /** The hour, minute and second fields of the player text, and how they add up. */
  lemma PlayerFields(t: nat)
    ensures (t % 3600) / 60 < 60 && t % 60 < 60
    ensures (t % 3600) % 60 == t % 60
    ensures 3600 * (t / 3600) + 60 * ((t % 3600) / 60) + t % 60 == t
    ensures t < 3600 ==> t / 3600 == 0 && (t % 3600) / 60 == t / 60 && t / 60 < 60
    ensures t >= 3600 ==> t / 3600 > 0
  {
    var q, r := t / 3600, t % 3600;
    var m, s := r / 60, r % 60;
    assert t == 60 * (60 * q + m) + s;
  }

  /** `m:ss` reads back as minutes `t / 60` and seconds `t % 60 < 60`, which together give `t`; the seconds field has exactly two digits. */
  lemma MinutesSecondsRoundTrip(t: nat)
    ensures ParseClock(FormatMinutesSeconds(t)) == Some([t / 60, t % 60])
    ensures t % 60 < 60 && ClockSeconds([t / 60, t % 60]) == t
    ensures |TwoDigits(t % 60)| == 2
  {
    ParsePrinted(t / 60);
    TwoDigitsExact(t % 60);
    ReadTwo(NatToString(t / 60), TwoDigits(t % 60));
  }

  /** Distinct positions never share an `m:ss` text. */
  lemma MinutesSecondsInjective(a: nat, b: nat)
    requires FormatMinutesSeconds(a) == FormatMinutesSeconds(b)
    ensures a == b
  {
    MinutesSecondsRoundTrip(a);
    MinutesSecondsRoundTrip(b);
  }

  /**
   * Below one hour the player shows two fields `m:ss` with `m < 60`; from one
   * hour on three fields `h:mm:ss` with `h > 0`. In both cases minutes and
   * seconds are below 60, the padded fields have two digits, and the fields
   * add back up to `t`.
   */
  lemma PlayerTimeRoundTrip(t: nat)
    ensures t < 3600 ==> ParseClock(FormatPlayerTime(t)) == Some([t / 60, t % 60]) && t / 60 < 60
    ensures t >= 3600 ==>
      ParseClock(FormatPlayerTime(t)) == Some([t / 3600, (t % 3600) / 60, t % 60]) && t / 3600 > 0
    ensures (t % 3600) / 60 < 60 && t % 60 < 60
    ensures 3600 * (t / 3600) + 60 * ((t % 3600) / 60) + t % 60 == t
    ensures |TwoDigits((t % 3600) / 60)| == 2 && |TwoDigits(t % 60)| == 2
  {
    PlayerFields(t);
    TwoDigitsExact((t % 3600) / 60);
    TwoDigitsExact(t % 60);
    if t < 3600 {
      ParsePrinted(t / 60);
      ReadTwo(NatToString(t / 60), TwoDigits(t % 60));
    } else {
      ParsePrinted(t / 3600);
      ReadThree(NatToString(t / 3600), TwoDigits((t % 3600) / 60), TwoDigits(t % 60));
    }
  }

  /** Distinct positions never share a player text. */
  lemma PlayerTimeInjective(a: nat, b: nat)
    requires FormatPlayerTime(a) == FormatPlayerTime(b)
    ensures a == b
  {
    PlayerTimeRoundTrip(a);
    PlayerTimeRoundTrip(b);
    var fa := ParseClock(FormatPlayerTime(a)).value;
    assert ClockSeconds(fa) == a;
    assert ClockSeconds(fa) == b;
  }
}
