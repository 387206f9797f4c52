/**
 * The chat handler's budget detector: the first match, scanning left to right, of
 * one or more ASCII digits, optional white space, then one of the unit words
 * laksha | lakh | lac | million | m, tried in that order, ignoring case.
 * The regular expression has no other parts, so a backtracking matcher can only
 * succeed at a start position with the whole digit run and the whole white-space
 * run that follow it: `MatchAt` is exactly the matcher's answer at one position.
 */
module Budget {
  import opened Wrappers
  import opened Text

  datatype Unit = Laksha | Lakh | Lac | Million | M

  /** The alternative of the pattern that matched, in lower case. */
  function UnitWord(u: Unit): string {
    match u
    case Laksha => "laksha"
    case Lakh => "lakh"
    case Lac => "lac"
    case Million => "million"
    case M => "m"
  }

  /** A match: where it starts, the first capture group (the digits) and the second (the unit). */
  datatype BudgetMatch = BudgetMatch(start: nat, digits: string, unit: Unit)

  /** End of the run of digits starting at `i`. */
  function DigitRunEnd(s: string, i: nat): (j: nat)
    requires i <= |s|
    ensures i <= j <= |s|
    ensures forall k :: i <= k < j ==> IsDigit(s[k])
    ensures j == |s| || !IsDigit(s[j])
    decreases |s| - i
  {
    if i < |s| && IsDigit(s[i]) then DigitRunEnd(s, i + 1) else i
  }

  /** End of the run of white space starting at `i`. */
  function SpaceRunEnd(s: string, i: nat): (j: nat)
    requires i <= |s|
    ensures i <= j <= |s|
    ensures forall k :: i <= k < j ==> IsSpace(s[k])
    ensures j == |s| || !IsSpace(s[j])
    decreases |s| - i
  {
    if i < |s| && IsSpace(s[i]) then SpaceRunEnd(s, i + 1) else i
  }

  /** `w` (lower case) occurs at `k`, ignoring the case of the text. */
  predicate WordAt(s: string, k: nat, w: string) {
    k + |w| <= |s| && LowerAsciiString(s[k..k + |w|]) == w
  }

  /** The first alternative of the unit group that matches at `k`. */
  function UnitAt(s: string, k: nat): Option<Unit> {
    if WordAt(s, k, "laksha") then Some(Laksha)
    else if WordAt(s, k, "lakh") then Some(Lakh)
    else if WordAt(s, k, "lac") then Some(Lac)
    else if WordAt(s, k, "million") then Some(Million)
    else if WordAt(s, k, "m") then Some(M)
    else None
  }

  /** The pattern's match starting exactly at position `i`, if there is one. */
  function MatchAt(s: string, i: nat): Option<BudgetMatch> {
    if i < |s| && IsDigit(s[i]) then
      var j := DigitRunEnd(s, i);
      match UnitAt(s, SpaceRunEnd(s, j))
      case Some(u) => Some(BudgetMatch(i, s[i..j], u))
      case None => None
    else None
  }

  /** Tries the start positions `i`, `i + 1`, ... in turn. */
  function SearchFrom(s: string, i: nat): (r: Option<BudgetMatch>)
    decreases |s| - i
  {
    if i >= |s| then None
    else if MatchAt(s, i).Some? then MatchAt(s, i)
    else SearchFrom(s, i + 1)
  }

  /** `message.match(/(\d+)\s*(laksha|lakh|lac|million|m)/i)`. */
  function Extract(s: string): Option<BudgetMatch> {
    SearchFrom(s, 0)
  }

  lemma {:induction false} SearchFromLeftmost(s: string, i: nat)
    requires forall k: nat :: k < i ==> MatchAt(s, k).None?
    ensures SearchFrom(s, i).None? ==> forall k: nat :: MatchAt(s, k).None?
    ensures SearchFrom(s, i).Some? ==>
      var m := SearchFrom(s, i).value;
      MatchAt(s, m.start) == Some(m) && forall k: nat :: k < m.start ==> MatchAt(s, k).None?
    decreases |s| - i
  {
    if i >= |s| {
      forall k: nat ensures MatchAt(s, k).None? {
        if k >= i { assert !(k < |s|); }
      }
    } else if MatchAt(s, i).None? {
      SearchFromLeftmost(s, i + 1);
    }
  }

  /** The detected budget is the leftmost match; with none anywhere, nothing is detected. */
  lemma ExtractIsLeftmost(s: string)
    ensures Extract(s).None? <==> forall k: nat :: MatchAt(s, k).None?
    ensures Extract(s).Some? ==>
      var m := Extract(s).value;
      MatchAt(s, m.start) == Some(m) && forall k: nat :: k < m.start ==> MatchAt(s, k).None?
  {
    SearchFromLeftmost(s, 0);
  }

  /** The number comes first: a match is digits, then white space only, then the unit word. */
  lemma MatchShape(s: string, i: nat)
    requires MatchAt(s, i).Some?
    ensures var m := MatchAt(s, i).value;
      && m.start == i && |m.digits| >= 1 && i + |m.digits| <= |s| && s[i..i + |m.digits|] == m.digits
      && (forall k :: 0 <= k < |m.digits| ==> IsDigit(m.digits[k]))
      && (i + |m.digits| == |s| || !IsDigit(s[i + |m.digits|]))
      && WordAt(s, SpaceRunEnd(s, i + |m.digits|), UnitWord(m.unit))
  {
  }

  /** A digit just before a match start gives a match one position earlier. */
  lemma DigitBeforeMatches(s: string, i: nat)
    requires 0 < i < |s| && MatchAt(s, i).Some? && IsDigit(s[i - 1])
    ensures MatchAt(s, i - 1).Some?
  {
    assert DigitRunEnd(s, i - 1) == DigitRunEnd(s, i);
  }

  /** The captured digits are a whole digit run: the match never starts inside a number. */
  lemma {:induction false} ExtractTakesWholeRun(s: string)
    requires Extract(s).Some?
    ensures var m := Extract(s).value;
      && |m.digits| >= 1 && m.start + |m.digits| <= |s|
      && (forall k :: 0 <= k < |m.digits| ==> IsDigit(m.digits[k]))
      && (m.start == 0 || !IsDigit(s[m.start - 1]))
      && (m.start + |m.digits| == |s| || !IsDigit(s[m.start + |m.digits|]))
  {
    var m := Extract(s).value;
    assert MatchAt(s, m.start) == Some(m) by { ExtractIsLeftmost(s); }
    MatchShape(s, m.start);
    if m.start > 0 && IsDigit(s[m.start - 1]) {
      assert MatchAt(s, m.start - 1).None? by { ExtractIsLeftmost(s); }
      DigitBeforeMatches(s, m.start);
      assert false;
    }
  }

  /** `parseInt` of the first capture group. */
  function Amount(m: BudgetMatch): nat
    requires forall k :: 0 <= k < |m.digits| ==> IsDigit(m.digits[k])
  {
    DigitsValue(m.digits)
  }

  /** The unit multiplies by a million when its lower-case word contains an 'm'. */
  predicate IsMillionUnit(u: Unit) {
    'm' in UnitWord(u)
  }

  /** The two unit families: million and m are the million family, the others the lakh family. */
  lemma UnitFamilies(u: Unit)
    ensures IsMillionUnit(u) <==> u == Million || u == M
  {
    assert 'm' !in "laksha" && 'm' !in "lakh" && 'm' !in "lac";
    assert "million"[0] == 'm' && "m"[0] == 'm';
  }

  /** The ceiling passed to the listing query, in rupees. */
  function Ceiling(m: BudgetMatch): (c: nat)
    requires forall k :: 0 <= k < |m.digits| ==> IsDigit(m.digits[k])
    ensures c == Amount(m) * (if m.unit == Million || m.unit == M then 1000000 else 100000)
  {
    UnitFamilies(m.unit);
    Amount(m) * (if IsMillionUnit(m.unit) then 1000000 else 100000)
  }

  /**
   * The `max` recorded in the assistant turn's metadata: always the number times
   * 100,000, which is the searched ceiling for the lakh family and a tenth of it
   * for the million family.
   */
  function StoredMax(m: BudgetMatch): (r: nat)
    requires forall k :: 0 <= k < |m.digits| ==> IsDigit(m.digits[k])
    ensures r == Amount(m) * 100000
    ensures r * (if m.unit == Million || m.unit == M then 10 else 1) == Ceiling(m)
  {
    Amount(m) * 100000
  }

  /** For the million family the stored maximum is a tenth of the ceiling actually searched. */
  lemma StoredMaxVersusCeiling(m: BudgetMatch)
    requires forall k :: 0 <= k < |m.digits| ==> IsDigit(m.digits[k])
    ensures m.unit == Million || m.unit == M ==> Ceiling(m) == 10 * StoredMax(m)
    ensures !(m.unit == Million || m.unit == M) ==> Ceiling(m) == StoredMax(m)
  {
  }

  // ---- examples ----

  /** Text with no upper-case ASCII letter is its own lower-case folding. */
  lemma LowerAsciiOfLower(w: string)
    requires forall i :: 0 <= i < |w| ==> !('A' <= w[i] <= 'Z')
    ensures LowerAsciiString(w) == w
  {
  }

  /** A unit word starts with its first letter, whatever the case. */
  lemma FirstLetter(s: string, k: nat, w: string)
    requires |w| > 0 && k < |s|
    ensures WordAt(s, k, w) ==> LowerAscii(s[k]) == w[0]
  {
    if WordAt(s, k, w) {
      assert LowerAsciiString(s[k..k + |w|])[0] == LowerAscii(s[k]);
    }
  }

  /** The search passes over positions that hold no digit. */
  lemma {:induction false} SearchSkipsNonDigits(s: string, i: nat, j: nat)
    requires i <= j <= |s|
    requires forall k :: i <= k < j ==> !IsDigit(s[k])
    ensures SearchFrom(s, i) == SearchFrom(s, j)
    decreases j - i
  {
    if i < j {
      SearchSkipsNonDigits(s, i + 1, j);
    }
  }

  /** Positions `i` whose digit run is not followed by a unit word do not start a match. */
  lemma NoUnitNoMatch(s: string, i: nat)
    requires i < |s| && UnitAt(s, SpaceRunEnd(s, DigitRunEnd(s, i))).None?
    ensures MatchAt(s, i).None?
  {
  }

  /** "40 lakhs": 40 x 100,000. */
  lemma ExampleLakhs()
    ensures Extract("40 lakhs") == Some(BudgetMatch(0, "40", Lakh))
    ensures Ceiling(BudgetMatch(0, "40", Lakh)) == 4000000
  {
    var s := "40 lakhs";
    assert DigitRunEnd(s, 0) == 2 by { assert DigitRunEnd(s, 2) == 2; }
    assert SpaceRunEnd(s, 2) == 3 by { assert SpaceRunEnd(s, 3) == 3; }
    assert UnitAt(s, 3) == Some(Lakh) by {
      assert !WordAt(s, 3, "laksha") by { assert |s| == 8; }
      assert s[3..7] == "lakh";
      LowerAsciiOfLower("lakh");
    }
    assert s[0..2] == "40";
    assert DigitsValue("40") == 40 by { assert "40"[..1] == "4"; }
  }

  lemma MillionUnit(s: string)
    requires s == "I have 2 million"
    ensures UnitAt(s, 9) == Some(Million)
  {
    FirstLetter(s, 9, "laksha");
    FirstLetter(s, 9, "lakh");
    FirstLetter(s, 9, "lac");
    assert s[9..16] == "million";
    LowerAsciiOfLower("million");
  }

  lemma MillionRuns(s: string)
    requires s == "I have 2 million"
    ensures DigitRunEnd(s, 7) == 8 && SpaceRunEnd(s, 8) == 9 && s[7..8] == "2"
  {
    assert DigitRunEnd(s, 8) == 8;
    assert SpaceRunEnd(s, 9) == 9;
  }

  lemma MillionSearch(s: string)
    requires s == "I have 2 million"
    ensures Extract(s) == Some(BudgetMatch(7, "2", Million))
  {
    SearchSkipsNonDigits(s, 0, 7);
    MillionUnit(s);
    MillionRuns(s);
  }

  /** "I have 2 million": million is tried before m, the ceiling is 2,000,000. */
  lemma ExampleMillion()
    ensures Extract("I have 2 million") == Some(BudgetMatch(7, "2", Million))
    ensures Ceiling(BudgetMatch(7, "2", Million)) == 2000000
  {
    MillionSearch("I have 2 million");
    assert DigitsValue("2") == 2 by { assert "2"[..0] == ""; }
  }

  lemma ModelYearUnit(s: string)
    requires s == "2018 model"
    ensures UnitAt(s, 5) == Some(M)
  {
    FirstLetter(s, 5, "laksha");
    FirstLetter(s, 5, "lakh");
    FirstLetter(s, 5, "lac");
    assert !WordAt(s, 5, "million") by { assert |s| == 10; }
    assert s[5..6] == "m";
    LowerAsciiOfLower("m");
  }

  lemma ModelYearRuns(s: string)
    requires s == "2018 model"
    ensures DigitRunEnd(s, 0) == 4 && SpaceRunEnd(s, 4) == 5 && s[0..4] == "2018"
  {
    assert DigitRunEnd(s, 4) == 4;
    assert DigitRunEnd(s, 2) == 4 by { assert DigitRunEnd(s, 3) == 4; }
    assert DigitRunEnd(s, 0) == 4 by { assert DigitRunEnd(s, 1) == 4; }
    assert SpaceRunEnd(s, 5) == 5;
  }

  /** "2018 model": the bare unit m matches the start of "model", giving 2018 x 1,000,000. */
  lemma ExampleModelYear()
    ensures Extract("2018 model") == Some(BudgetMatch(0, "2018", M))
    ensures Ceiling(BudgetMatch(0, "2018", M)) == 2018000000
  {
    var s := "2018 model";
    ModelYearUnit(s);
    ModelYearRuns(s);
    assert DigitsValue("2018") == 2018 by {
      assert "2018"[..3] == "201";
      assert "201"[..2] == "20";
      assert "20"[..1] == "2";
    }
  }

  /**
   * No digit before `a`, no match in `[a, b)` and no digit from `b` on: the
   * message has no match at all.
   */
  lemma NoMatchAnywhere(s: string, a: nat, b: nat)
    requires a <= b <= |s|
    requires forall k :: 0 <= k < a ==> !IsDigit(s[k])
    requires forall k: nat :: a <= k < b ==> MatchAt(s, k).None?
    requires forall k :: b <= k < |s| ==> !IsDigit(s[k])
    ensures Extract(s).None?
  {
    ExtractIsLeftmost(s);
    forall k: nat ensures MatchAt(s, k).None? {
      if k < a || b <= k {
        assert !(k < |s| && IsDigit(s[k]));
      }
    }
  }

  lemma UnitFirstDigits(s: string)
    requires s == "Laksha 40ta thiyena hoda car monawada?"
    ensures forall k :: 0 <= k < 7 ==> !IsDigit(s[k])
    ensures forall k :: 9 <= k < |s| ==> !IsDigit(s[k])
  {
  }

  lemma UnitFirstNoUnit(s: string)
    requires s == "Laksha 40ta thiyena hoda car monawada?"
    ensures UnitAt(s, 9).None?
  {
    assert s[9] == 't';
    FirstLetter(s, 9, "laksha");
    FirstLetter(s, 9, "lakh");
    FirstLetter(s, 9, "lac");
    FirstLetter(s, 9, "million");
    FirstLetter(s, 9, "m");
  }

  lemma UnitFirstRuns(s: string)
    requires s == "Laksha 40ta thiyena hoda car monawada?"
    ensures DigitRunEnd(s, 7) == 9 && DigitRunEnd(s, 8) == 9 && SpaceRunEnd(s, 9) == 9
  {
    assert DigitRunEnd(s, 9) == 9;
  }

  lemma UnitFirstNoMatch(s: string)
    requires s == "Laksha 40ta thiyena hoda car monawada?"
    ensures MatchAt(s, 7).None? && MatchAt(s, 8).None?
  {
    UnitFirstNoUnit(s);
    UnitFirstRuns(s);
    NoUnitNoMatch(s, 7);
    NoUnitNoMatch(s, 8);
  }

  lemma UnitFirstSearch(s: string)
    requires s == "Laksha 40ta thiyena hoda car monawada?"
    ensures Extract(s).None?
  {
    UnitFirstNoMatch(s);
    UnitFirstDigits(s);
    NoMatchAnywhere(s, 7, 9);
  }

  /** The widget's sample prompt puts the unit before the number, so nothing is detected. */
  lemma ExampleUnitFirst()
    ensures Extract("Laksha 40ta thiyena hoda car monawada?").None?
  {
    UnitFirstSearch("Laksha 40ta thiyena hoda car monawada?");
  }
}
