/** The success criterion the generator's tests apply to a token, and the
    tests' table of lengths and default-length check stated as lemmas over
    every possible sequence of draws. */
module OtpgenTest {
  import opened Otpgen

  /** A token is numeric when it is non-empty and made of decimal digits. */
  predicate IsNumeric(s: string) {
    |s| > 0 && forall i :: 0 <= i < |s| ==> '0' <= s[i] <= '9'
  }

  /** The tests' character-by-character check, stopping at the first
      character that is not a digit. */
  method CheckNumeric(s: string) returns (numeric: bool)
    ensures numeric <==> IsNumeric(s)
  {
    for i := 0 to |s|
      invariant forall j :: 0 <= j < i ==> '0' <= s[j] <= '9'
    {
      if s[i] < '0' || s[i] > '9' {
        return false;
      }
    }
    return |s| > 0;
  }

  /** Every successful call yields a numeric token of the requested length. */
  lemma SuccessIsNumeric(length: int, draws: seq<Draw>)
    requires GenerateSpec(length, draws).err == None
    ensures |GenerateSpec(length, draws).token| == length
    ensures IsNumeric(GenerateSpec(length, draws).token)
  {
  }

  /** The valid rows of the test table (lengths 1, 6 and 1000): with a
      source that does not fail they succeed with a numeric token of that
      length. A special case of the general contract of `GenerateSpec`, kept
      to mirror the test table. */
  lemma ValidTableLengthsSucceed(length: int, draws: seq<Draw>)
    requires length == 1 || length == 6 || length == 1000
    requires forall j :: 0 <= j < length ==> At(draws, j).Drawn?
    ensures GenerateSpec(length, draws).err == None
    ensures |GenerateSpec(length, draws).token| == length
    ensures IsNumeric(GenerateSpec(length, draws).token)
  {
  }

  /** The invalid rows of the test table (lengths 0, -1 and 1001): the
      invalid-length error and an empty token, whatever the source holds. A
      special case of the general contract of `GenerateSpec`, kept to mirror
      the test table. */
  lemma InvalidTableLengthsRejected(length: int, draws: seq<Draw>)
    requires length == 0 || length == -1 || length == 1001
    ensures GenerateSpec(length, draws) == Outcome("", Some(ErrInvalidLength), 0)
  {
  }

  /** The default-length test: when the default call succeeds its token is
      numeric and six characters long. */
  lemma DefaultIsSixDigits(draws: seq<Draw>)
    requires GenerateSpec(DefaultLength, draws).err == None
    ensures |GenerateSpec(DefaultLength, draws).token| == DefaultLength == 6
    ensures IsNumeric(GenerateSpec(DefaultLength, draws).token)
  {
  }

  /** A concrete run: six successful draws spell out their digits. */
  lemma SixDrawsSpellToken()
    ensures GenerateSpec(6, [Drawn(4), Drawn(0), Drawn(9), Drawn(1), Drawn(7), Drawn(3), Drawn(5)])
         == Outcome("409173", None, 6)
  {
  }

  /** A concrete run: the third draw fails, so three draws are taken and the
      crypto-failure error comes back with an empty token. */
  lemma FailingDrawStopsGeneration()
    ensures GenerateSpec(6, [Drawn(4), Drawn(2), DrawError, Drawn(7)])
         == Outcome("", Some(ErrCryptoFailure), 3)
  {
  }

  /** A concrete run: a source that runs out after two draws fails the call. */
  lemma ExhaustedSourceFails()
    ensures GenerateSpec(6, [Drawn(1), Drawn(8)]) == Outcome("", Some(ErrCryptoFailure), 3)
  {
  }
}
