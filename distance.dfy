/**
 * `distanceOfTimeInWords(seconds, compareWithNow, compact?)`: renders a
 * non-negative duration in seconds as an approximate phrase. The unit is the
 * coarsest one the duration has reached (a month counts as 30 days and a year
 * as 365 days), the magnitude is the duration in that unit rounded to the
 * nearest whole number (this model rounds exact halves up), and the phrase is
 * either long ("17 minutes", unit name pluralised) or compact ("17m").
 */
module Distance {
  import opened Wrappers
  import opened Decimal
  import opened Pluralize

  datatype Unit = Second | Minute | Hour | Day | Week | Month | Year

  /** Length of one unit in seconds. */
  function Factor(u: Unit): nat {
    match u
    case Second => 1
    case Minute => 60
    case Hour => 60 * 60
    case Day => 24 * 60 * 60
    case Week => 7 * 24 * 60 * 60
    case Month => 30 * 24 * 60 * 60
    case Year => 365 * 24 * 60 * 60
  }

  /** Position of a unit from finest to coarsest. */
  function Rank(u: Unit): nat {
    match u
    case Second => 0
    case Minute => 1
    case Hour => 2
    case Day => 3
    case Week => 4
    case Month => 5
    case Year => 6
  }

  function LongName(u: Unit): string {
    match u
    case Second => "second"
    case Minute => "minute"
    case Hour => "hour"
    case Day => "day"
    case Week => "week"
    case Month => "month"
    case Year => "year"
  }

  function Abbrev(u: Unit): string {
    match u
    case Second => "s"
    case Minute => "m"
    case Hour => "h"
    case Day => "d"
    case Week => "w"
    case Month => "mo"
    case Year => "y"
  }

  /** The coarsest unit that `seconds` has reached; seconds when it has reached none. */
  function SelectUnit(seconds: nat): (u: Unit)
    ensures u == Second || Factor(u) <= seconds
    ensures forall v :: Factor(v) <= seconds ==> Rank(v) <= Rank(u)
  {
    if seconds < Factor(Minute) then Second
    else if seconds < Factor(Hour) then Minute
    else if seconds < Factor(Day) then Hour
    else if seconds < Factor(Week) then Day
    else if seconds < Factor(Month) then Week
    else if seconds < Factor(Year) then Month
    else Year
  }

  /** `n / d` rounded to the nearest whole number: `q * d` lies within half a unit of `n`; an exact half rounds up. */
  function RoundDiv(n: nat, d: nat): (q: nat)
    requires d > 0
    ensures 2 * n - d < 2 * q * d <= 2 * n + d
  {
    (2 * n + d) / (2 * d)
  }

  /** What a phrase says: a magnitude in a unit. */
  datatype Phrase = Phrase(magnitude: nat, unit: Unit)

  /** The unit the duration has reached and the duration, rounded to the nearest whole number, in that unit. */
  function PhraseOf(seconds: nat): (p: Phrase)
    ensures p.unit == SelectUnit(seconds)
    ensures 2 * seconds - Factor(p.unit) < 2 * p.magnitude * Factor(p.unit) <= 2 * seconds + Factor(p.unit)
  {
    var u := SelectUnit(seconds);
    Phrase(RoundDiv(seconds, Factor(u)), u)
  }

  function Render(p: Phrase, compact: bool): string {
    if compact then NatToString(p.magnitude) + Abbrev(p.unit)
    else NatToString(p.magnitude) + " " + Plural(LongName(p.unit), p.magnitude, None)
  }

  function DistanceOfTimeInWords(seconds: nat, compact: bool): string {
    Render(PhraseOf(seconds), compact)
  }

  /** The largest magnitude a unit below years can show before the next unit takes over. */
  function MaxMagnitude(u: Unit): nat
    requires u != Year
  {
    match u
    case Second => 59
    case Minute => 60
    case Hour => 24
    case Day => 7
    case Week => 4
    case Month => 12
  }

  /** Bounds of the magnitude: exact in seconds, at least one otherwise, and capped below years. */
  lemma PhraseBounds(seconds: nat)
    ensures var p := PhraseOf(seconds);
      (p.unit == Second ==> p.magnitude == seconds) &&
      (seconds > 0 ==> p.magnitude >= 1) &&
      (p.unit != Year ==> p.magnitude <= MaxMagnitude(p.unit))
  {
    var u := SelectUnit(seconds);
    var f := Factor(u);
    var q := RoundDiv(seconds, f);
    match u
    case Second => assert q == seconds;
    case Minute => assert q * 120 <= 2 * seconds + 60;
    case Hour => assert q * 7200 <= 2 * seconds + 3600;
    case Day => assert q * 172800 <= 2 * seconds + 86400;
    case Week => assert q * 1209600 <= 2 * seconds + 604800;
    case Month => assert q * 5184000 <= 2 * seconds + 2592000;
    case Year => assert 2 * seconds - f < 2 * q * f;
  }

  lemma RoundDivMonotone(m: nat, n: nat, d: nat)
    requires d > 0 && m <= n
    ensures RoundDiv(m, d) <= RoundDiv(n, d)
  {
    var p, q := RoundDiv(m, d), RoundDiv(n, d);
    assert p * (2 * d) < (q + 1) * (2 * d);
    MulLess(p, q + 1, 2 * d);
  }

  lemma MulLess(a: nat, b: nat, c: nat)
    requires c > 0 && a * c < b * c
    ensures a < b
  {
  }

  /** A longer duration never gets a finer unit, nor a smaller magnitude in the same unit. */
  lemma PhraseMonotone(s: nat, t: nat)
    requires s <= t
    ensures Rank(PhraseOf(s).unit) <= Rank(PhraseOf(t).unit)
    ensures PhraseOf(s).unit == PhraseOf(t).unit ==> PhraseOf(s).magnitude <= PhraseOf(t).magnitude
  {
    var u := SelectUnit(s);
    RoundDivMonotone(s, t, Factor(u));
  }

  /** Inverse of the long unit names. */
  function UnitOfName(name: string): Option<Unit> {
    if name == LongName(Second) then Some(Second)
    else if name == LongName(Minute) then Some(Minute)
    else if name == LongName(Hour) then Some(Hour)
    else if name == LongName(Day) then Some(Day)
    else if name == LongName(Week) then Some(Week)
    else if name == LongName(Month) then Some(Month)
    else if name == LongName(Year) then Some(Year)
    else None
  }

  /** Inverse of the compact unit suffixes. */
  function UnitOfAbbrev(suffix: string): Option<Unit> {
    if suffix == Abbrev(Second) then Some(Second)
    else if suffix == Abbrev(Minute) then Some(Minute)
    else if suffix == Abbrev(Hour) then Some(Hour)
    else if suffix == Abbrev(Day) then Some(Day)
    else if suffix == Abbrev(Week) then Some(Week)
    else if suffix == Abbrev(Month) then Some(Month)
    else if suffix == Abbrev(Year) then Some(Year)
    else None
  }

  lemma UnitOfNameOfLongName(u: Unit)
    ensures UnitOfName(LongName(u)) == Some(u)
  {
  }

  lemma UnitOfAbbrevOfAbbrev(u: Unit)
    ensures UnitOfAbbrev(Abbrev(u)) == Some(u)
  {
  }

  /** Reads a phrase back from its long or compact rendering. */
  function ParsePhrase(text: string, compact: bool): Option<Phrase> {
    var numeral :- ReadNat(text);
    var n, rest := numeral.0, numeral.1;
    var u :- if compact then UnitOfAbbrev(rest) else ReadLongUnit(rest, n);
    Some(Phrase(n, u))
  }

  function ReadLongUnit(rest: string, n: nat): Option<Unit> {
    var name :- Consume(rest, " ");
    var singular :- Singular(name, n);
    UnitOfName(singular)
  }

  /** Both renderings lose nothing: the phrase is recovered from either. */
  lemma RenderRoundTrip(p: Phrase, compact: bool)
    ensures ParsePhrase(Render(p, compact), compact) == Some(p)
  {
    var numeral := NatToString(p.magnitude);
    if compact {
      var suffix := Abbrev(p.unit);
      assert !IsDigit(suffix[0]);
      ReadNatOfNumeral(p.magnitude, suffix);
      UnitOfAbbrevOfAbbrev(p.unit);
    } else {
      var name := Plural(LongName(p.unit), p.magnitude, None);
      assert numeral + " " + name == numeral + (" " + name);
      ReadNatOfNumeral(p.magnitude, " " + name);
      ConsumeLiteral(" ", name);
      SingularOfPlural(LongName(p.unit), p.magnitude);
      UnitOfNameOfLongName(p.unit);
    }
  }

  /** The compact and the long form of a duration state the same magnitude in the same unit. */
  lemma CompactAgreesWithLong(seconds: nat)
    ensures ParsePhrase(DistanceOfTimeInWords(seconds, true), true)
         == ParsePhrase(DistanceOfTimeInWords(seconds, false), false)
         == Some(PhraseOf(seconds))
  {
    RenderRoundTrip(PhraseOf(seconds), true);
    RenderRoundTrip(PhraseOf(seconds), false);
  }
}
