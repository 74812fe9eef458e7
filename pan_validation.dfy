/** PAN (Primary Account Number) validation as `ClearingCostService` performs it:
    a format check (8 to 19 decimal digits) and the Luhn mod-10 checksum of
    ISO/IEC 7812-1, Annex B. */
module PanValidation {
  import opened Wrappers

  /** Java's `\d` without the UNICODE_CHARACTER_CLASS flag: an ASCII decimal digit. */
  predicate IsDigit(c: char) {
    '0' <= c <= '9'
  }

  predicate AllDigits(s: string) {
    forall i :: 0 <= i < |s| ==> IsDigit(s[i])
  }

  /** `s.matches("\\d+")`: the whole string is one or more decimal digits. */
  function MatchesDigits(s: string): (m: bool)
    ensures m <==> |s| > 0 && AllDigits(s)
  {
    |s| > 0 && IsDigit(s[0]) && (|s| == 1 || MatchesDigits(s[1..]))
  }

  /** `isValidPanFormat`: `None` stands for a null reference. */
  function IsValidPanFormat(pan: Option<string>): (ok: bool)
    ensures ok <==> pan.Some? && 8 <= |pan.value| <= 19 && AllDigits(pan.value)
  {
    if pan.None? || |pan.value| < 8 || |pan.value| > 19 then false
    else MatchesDigits(pan.value)
  }

  /** `pan.charAt(i) - '0'`: the character's code minus that of '0' (any character, not only digits). */
  function DigitValue(c: char): (v: int) {
    c as int - '0' as int
  }

  /** What one character adds to the Luhn sum: its value, doubled when `doubled`,
      less 9 when that exceeds 9. */
  function Contribution(c: char, doubled: bool): (v: int)
    ensures IsDigit(c) ==> 0 <= v <= 9
  {
    var d := if doubled then DigitValue(c) * 2 else DigitValue(c);
    if d > 9 then d - 9 else d
  }

  /** The Luhn sum of `s` read from its right end: the rightmost character is doubled
      iff `doubled`, and doubling alternates from there towards the left. */
  function LuhnSumFrom(s: string, doubled: bool): (sum: int)
    decreases |s|
  {
    if |s| == 0 then 0
    else Contribution(s[|s| - 1], doubled) + LuhnSumFrom(s[..|s| - 1], !doubled)
  }

  /** The Luhn sum of a PAN: the rightmost digit (the check digit) is not doubled. */
  function LuhnSum(s: string): (sum: int) {
    LuhnSumFrom(s, false)
  }

  /** Whether the character `k` positions from the left of `s` is doubled in `LuhnSum(s)`:
      those an odd distance away from the rightmost character. */
  predicate DoubledAt(s: string, k: nat) {
    (|s| - 1 - k) % 2 == 1
  }

  /** Adding a character on the left adds its contribution, doubled according to how
      many characters stand to its right. */
  lemma {:induction false} LuhnSumFromPrepend(c: char, t: string, doubled: bool)
    ensures LuhnSumFrom([c] + t, doubled) == LuhnSumFrom(t, doubled) + Contribution(c, doubled != (|t| % 2 == 1))
    decreases |t|
  {
    var s := [c] + t;
    if |t| == 0 {
      assert s[..|s| - 1] == [];
    } else {
      assert s[|s| - 1] == t[|t| - 1];
      assert s[..|s| - 1] == [c] + t[..|t| - 1];
      LuhnSumFromPrepend(c, t[..|t| - 1], !doubled);
    }
  }

  /** `isValidLuhn`: the right-to-left loop over the digits with a running `sum` and
      the `isSecond` flag, accepting iff the sum is a multiple of 10. Java's `%`
      truncates, Dafny's is Euclidean; both give 0 for exactly the multiples of 10. */
  method IsValidLuhn(pan: string) returns (valid: bool)
    ensures valid <==> LuhnSum(pan) % 10 == 0
  {
    var nDigits := |pan|;
    var sum := 0;
    var isSecond := false;
    var i := nDigits - 1;
    while i >= 0
      invariant -1 <= i < nDigits
      invariant isSecond <==> (nDigits - 1 - i) % 2 == 1
      invariant sum == LuhnSum(pan[i + 1..])
    {
      var d := DigitValue(pan[i]);
      if isSecond {
        d := d * 2;
      }
      sum := sum + if d > 9 then d - 9 else d;
      LuhnSumFromPrepend(pan[i], pan[i + 1..], false);
      assert pan[i..] == [pan[i]] + pan[i + 1..];
      isSecond := !isSecond;
      i := i - 1;
    }
    assert pan[0..] == pan;
    valid := sum % 10 == 0;
  }

  /** `isPanValid`: format first, and only then the checksum, so the checksum is only
      ever computed over 8 to 19 decimal digits, where the sum stays within 0..171
      whether the PAN is then accepted or not. */
  function IsPanValid(pan: Option<string>): (ok: bool)
    ensures ok <==> pan.Some? && 8 <= |pan.value| <= 19 && AllDigits(pan.value) && LuhnSum(pan.value) % 10 == 0
    ensures IsValidPanFormat(pan) ==> 0 <= LuhnSum(pan.value) <= 171
  {
    if IsValidPanFormat(pan) then
      LuhnSumBounds(pan.value);
      LuhnSum(pan.value) % 10 == 0
    else false
  }

  /** Over decimal digits every character contributes 0..9, so the sum is at most 9 per digit. */
  lemma {:induction false} LuhnSumFromBounds(s: string, doubled: bool)
    requires AllDigits(s)
    ensures 0 <= LuhnSumFrom(s, doubled) <= 9 * |s|
    decreases |s|
  {
    if |s| > 0 {
      LuhnSumFromBounds(s[..|s| - 1], !doubled);
    }
  }

  lemma LuhnSumBounds(s: string)
    requires AllDigits(s)
    ensures 0 <= LuhnSum(s) <= 9 * |s|
  {
    LuhnSumFromBounds(s, false);
  }

  /** For a fixed doubling, distinct digits contribute distinct values: doubling then
      subtracting 9 maps 0..9 onto 0, 2, 4, 6, 8, 1, 3, 5, 7, 9. */
  lemma ContributionInjective(a: char, b: char, doubled: bool)
    requires IsDigit(a) && IsDigit(b) && a != b
    ensures Contribution(a, doubled) != Contribution(b, doubled)
  {
  }

  /** Replacing the character at `k` changes the sum by exactly the difference of the two
      contributions at that position. */
  lemma {:induction false} LuhnSumFromReplace(s: string, k: nat, c: char, doubled: bool)
    requires k < |s|
    ensures LuhnSumFrom(s[k := c], doubled)
         == LuhnSumFrom(s, doubled) - Contribution(s[k], doubled != DoubledAt(s, k)) + Contribution(c, doubled != DoubledAt(s, k))
    decreases |s|
  {
    var s' := s[k := c];
    var n := |s|;
    if k == n - 1 {
      assert s'[..n - 1] == s[..n - 1];
    } else {
      assert s'[n - 1] == s[n - 1];
      assert s'[..n - 1] == s[..n - 1][k := c];
      LuhnSumFromReplace(s[..n - 1], k, c, !doubled);
    }
  }

  /** The purpose of the Luhn check digit: mistyping any single digit of a PAN that
      passes the checksum yields one that fails it. */
  lemma SingleDigitErrorDetected(s: string, k: nat, c: char)
    requires k < |s| && AllDigits(s) && IsDigit(c) && c != s[k]
    requires LuhnSum(s) % 10 == 0
    ensures LuhnSum(s[k := c]) % 10 != 0
  {
    var doubled := DoubledAt(s, k);
    LuhnSumFromReplace(s, k, c, false);
    ContributionInjective(s[k], c, doubled);
    var before, after := Contribution(s[k], doubled), Contribution(c, doubled);
    var sum := LuhnSum(s);
    assert LuhnSum(s[k := c]) == sum - before + after;
    assert sum == 10 * (sum / 10);
  }

  /** The PAN used by the endpoint's documentation and the service test: 8 digits with Luhn sum 30. */
  lemma ValidExamplePan()
    ensures LuhnSum("45717360") == 30
    ensures IsPanValid(Some("45717360"))
  {
    assert LuhnSumFrom("4", true) == 8;
    assert "45"[..1] == "4";
    assert LuhnSumFrom("45", false) == 13;
    assert "457"[..2] == "45";
    assert LuhnSumFrom("457", true) == 18;
    assert "4571"[..3] == "457";
    assert LuhnSumFrom("4571", false) == 19;
    assert "45717"[..4] == "4571";
    assert LuhnSumFrom("45717", true) == 24;
    assert "457173"[..5] == "45717";
    assert LuhnSumFrom("457173", false) == 27;
    assert "4571736"[..6] == "457173";
    assert LuhnSumFrom("4571736", true) == 30;
    assert "45717360"[..7] == "4571736";
    assert LuhnSumFrom("45717360", false) == 30;
  }

  /** A 16-digit PAN that looks plausible but whose Luhn sum is 41: it is rejected. */
  lemma RejectedExamplePan()
    ensures LuhnSum("4571736000000043") == 41
    ensures !IsPanValid(Some("4571736000000043"))
  {
    assert LuhnSumFrom("4", true) == 8;
    assert "45"[..1] == "4";
    assert LuhnSumFrom("45", false) == 13;
    assert "457"[..2] == "45";
    assert LuhnSumFrom("457", true) == 18;
    assert "4571"[..3] == "457";
    assert LuhnSumFrom("4571", false) == 19;
    assert "45717"[..4] == "4571";
    assert LuhnSumFrom("45717", true) == 24;
    assert "457173"[..5] == "45717";
    assert LuhnSumFrom("457173", false) == 27;
    assert "4571736"[..6] == "457173";
    assert LuhnSumFrom("4571736", true) == 30;
    assert "45717360"[..7] == "4571736";
    assert LuhnSumFrom("45717360", false) == 30;
    assert "457173600"[..8] == "45717360";
    assert LuhnSumFrom("457173600", true) == 30;
    assert "4571736000"[..9] == "457173600";
    assert LuhnSumFrom("4571736000", false) == 30;
    assert "45717360000"[..10] == "4571736000";
    assert LuhnSumFrom("45717360000", true) == 30;
    assert "457173600000"[..11] == "45717360000";
    assert LuhnSumFrom("457173600000", false) == 30;
    assert "4571736000000"[..12] == "457173600000";
    assert LuhnSumFrom("4571736000000", true) == 30;
    assert "45717360000000"[..13] == "4571736000000";
    assert LuhnSumFrom("45717360000000", false) == 30;
    assert "457173600000004"[..14] == "45717360000000";
    assert LuhnSumFrom("457173600000004", true) == 38;
    assert "4571736000000043"[..15] == "457173600000004";
    assert LuhnSumFrom("4571736000000043", false) == 41;
  }
}
