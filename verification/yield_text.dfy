/** Yield estimates of the crop table and the pattern `(\d+)-(\d+)` with which
    `calculateYield` reads them back (src/data/cropData.ts:490-493). */
module YieldText {
  import opened Options
  import opened Text

  /** A table yield estimate: a numeric range in quintals per hectare, or free
      text such as "Varies by crop". */
  datatype YieldEstimate = PerHectare(lo: nat, hi: nat) | Descriptive(text: string)

  /** The text the table shows for an estimate: "<lo>-<hi> quintals/hectare". */
  function EstimateText(e: YieldEstimate): string
  {
    match e
    case PerHectare(lo, hi) => Decimal(lo) + "-" + Decimal(hi) + " quintals/hectare"
    case Descriptive(text) => text
  }

  /** The length of the maximal run of digits starting at position `i`. */
  function DigitRun(s: string, i: nat): (n: nat)
    requires i <= |s|
    ensures i + n <= |s|
    ensures forall j | i <= j < i + n :: IsDigit(s[j])
    ensures i + n == |s| || !IsDigit(s[i + n])
    decreases |s| - i
  {
    if i < |s| && IsDigit(s[i]) then 1 + DigitRun(s, i + 1) else 0
  }

  /** The pattern tried at position `i`. The first `\d+` is greedy and only a
      '-' may follow it, so backtracking never helps: a match exists exactly
      when the maximal run at `i` is non-empty, is followed by '-', and that by
      at least one digit; the second `\d+` takes the maximal run. */
  function MatchAt(s: string, i: nat): Option<(nat, nat)>
    requires i <= |s|
  {
    var j := i + DigitRun(s, i);
    if j > i && j < |s| && s[j] == '-' && DigitRun(s, j + 1) > 0 then
      Some((DecimalValue(s[i..j]), DecimalValue(s[j + 1..j + 1 + DigitRun(s, j + 1)])))
    else None
  }

  /** The leftmost match at or after position `i`. */
  function MatchFrom(s: string, i: nat): (r: Option<(nat, nat)>)
    requires i <= |s|
    ensures r.None? ==> forall j | i <= j <= |s| :: MatchAt(s, j).None?
    ensures r.Some? ==> exists j | i <= j < |s| :: MatchAt(s, j) == r && forall m | i <= m < j :: MatchAt(s, m).None?
    decreases |s| - i
  {
    if i == |s| then None
    else if MatchAt(s, i).Some? then MatchAt(s, i)
    else MatchFrom(s, i + 1)
  }

  /** `s.match(/(\d+)-(\d+)/)` followed by `parseFloat` of both groups. */
  function ParseRange(s: string): Option<(nat, nat)>
  {
    MatchFrom(s, 0)
  }

  /** A run of `n` digits ending the text or followed by a non-digit is the
      maximal run. */
  lemma {:induction false} DigitRunIs(s: string, i: nat, n: nat)
    requires i + n <= |s|
    requires forall j | i <= j < i + n :: IsDigit(s[j])
    requires i + n == |s| || !IsDigit(s[i + n])
    ensures DigitRun(s, i) == n
    decreases n
  {
    if n > 0 {
      DigitRunIs(s, i + 1, n - 1);
    }
  }

  /** Reading back the text of a numeric estimate gives its two bounds. */
  lemma EstimateRoundTrip(lo: nat, hi: nat)
    ensures ParseRange(EstimateText(PerHectare(lo, hi))) == Some((lo, hi))
  {
    var a, b := Decimal(lo), Decimal(hi);
    var tail := " quintals/hectare";
    var s := a + "-" + b + tail;
    assert s == EstimateText(PerHectare(lo, hi));
    DigitRunIs(s, 0, |a|);
    DigitRunIs(s, |a| + 1, |b|);
    assert s[0..|a|] == a;
    assert s[|a| + 1..|a| + 1 + |b|] == b;
    DecimalRoundTrip(lo);
    DecimalRoundTrip(hi);
    assert MatchAt(s, 0) == Some((lo, hi));
  }

  /** A text without digits never matches, so it parses to nothing. */
  lemma NoDigitsNoRange(s: string)
    requires NoDigits(s)
    ensures ParseRange(s).None?
  {
    forall j | 0 <= j <= |s|
      ensures MatchAt(s, j).None?
    {
      assert j == |s| || !IsDigit(s[j]);
    }
  }
}
