/** Fixed-length numeric one-time-password tokens drawn digit by digit from a
    cryptographically secure source.

    The secure source is modelled by its contract only: each call to draw a
    number below ten either fails or yields a value in [0, 10). A run of the
    generator sees the source as the sequence of outcomes it would produce, so
    the model is deterministic and states which error comes back, how many
    draws were taken and which token is built.
 */
module Otpgen {

  const MinLength: int := 1
  const MaxLength: int := 1000
  const DefaultLength: int := 6

  /** The alphabet a drawn number indexes into. */
  const Digits: string := "0123456789"

  /** The two sentinel errors the generator returns. */
  datatype Error = ErrInvalidLength | ErrCryptoFailure

  datatype Option<+T> = None | Some(value: T)

  /** A number the secure source may return when asked for one below ten. */
  type Digit = d: int | 0 <= d < 10

  /** The outcome of one request to the secure source. */
  datatype Draw = DrawError | Drawn(num: Digit)

  /** What one call of the generator produces: the token, the error (None
      for a nil error) and the number of draws it asked the source for. */
  datatype Outcome = Outcome(token: string, err: Option<Error>, consumed: nat)

  predicate ValidLength(length: int) {
    MinLength <= length <= MaxLength
  }

  /** The i-th outcome of the source; a source whose recorded outcomes have
      run out reports an error, as an exhausted entropy source does. */
  function At(draws: seq<Draw>, i: nat): (d: Draw)
    ensures i < |draws| ==> d == draws[i]
    ensures |draws| <= i ==> d.DrawError?
  {
    if i < |draws| then draws[i] else DrawError
  }

  /** The character a drawn number selects from the alphabet. */
  function DigitChar(d: Digit): (c: char)
    ensures '0' <= c <= '9'
    ensures c as int == '0' as int + d
  {
    Digits[d]
  }

  /** The position of the first failing draw among the first n, or n when
      none of them fails. */
  function FirstFailure(draws: seq<Draw>, n: nat): (k: nat)
    ensures k <= n
    ensures forall j :: 0 <= j < k ==> At(draws, j).Drawn?
    ensures k < n ==> At(draws, k).DrawError?
  {
    if n == 0 then 0
    else
      var k := FirstFailure(draws, n - 1);
      if k < n - 1 then k
      else if At(draws, n - 1).DrawError? then n - 1
      else n
  }

  /** The token spelt by the first n draws, all of which succeeded. */
  function TokenOf(draws: seq<Draw>, n: nat): (t: string)
    requires forall j :: 0 <= j < n ==> At(draws, j).Drawn?
    ensures |t| == n
    ensures forall i :: 0 <= i < n ==> t[i] as int == '0' as int + At(draws, i).num
  {
    seq(n, i requires 0 <= i < n => DigitChar(At(draws, i).num))
  }

  /** The reference behaviour of one generator call: the length is checked
      before any draw, every position takes one draw, and the first failing
      draw ends the call with an empty token. */
  function GenerateSpec(length: int, draws: seq<Draw>): (r: Outcome)
    // the invalid-length error comes back exactly for lengths outside the
    // bounds, with an empty token and before any draw
    ensures r.err == Some(ErrInvalidLength) <==> !ValidLength(length)
    ensures !ValidLength(length) ==> r.token == "" && r.consumed == 0
    // a call succeeds exactly when the length is valid and each of its first
    // `length` draws succeeds
    ensures r.err == None <==> ValidLength(length) && forall j :: 0 <= j < length ==> At(draws, j).Drawn?
    // on success: one draw per position, position i holds the i-th drawn digit
    ensures r.err == None ==>
      && |r.token| == length && r.consumed == length
      && forall i :: 0 <= i < length ==> At(draws, i).Drawn? && r.token[i] as int == '0' as int + At(draws, i).num
    // on a failed draw: empty token, all earlier draws succeeded, the failing
    // draw is the last one taken
    ensures r.err == Some(ErrCryptoFailure) ==>
      && ValidLength(length) && r.token == ""
      && 1 <= r.consumed <= length
      && At(draws, r.consumed - 1).DrawError?
      && forall j :: 0 <= j < r.consumed - 1 ==> At(draws, j).Drawn?
  {
    if !ValidLength(length) then Outcome("", Some(ErrInvalidLength), 0)
    else
      var k := FirstFailure(draws, length);
      if k < length then Outcome("", Some(ErrCryptoFailure), k + 1)
      else Outcome(TokenOf(draws, length), None, length)
  }

  /** Generates a numeric token of the requested length: validates the
      length, then fills a buffer one drawn digit at a time, giving up at the
      first failing draw. `used` counts the draws requested from the source. */
  method Generate(length: int, draws: seq<Draw>) returns (token: string, err: Option<Error>, used: nat)
    ensures Outcome(token, err, used) == GenerateSpec(length, draws)
  {
    if length < MinLength || length > MaxLength {
      return "", Some(ErrInvalidLength), 0;
    }
    var buffer := new char[length];
    used := 0;
    for i := 0 to length
      invariant used == i
      invariant forall j :: 0 <= j < i ==> At(draws, j).Drawn?
      invariant forall j :: 0 <= j < i ==> buffer[j] == DigitChar(At(draws, j).num)
    {
      var d := At(draws, used);
      used := used + 1;
      if d.DrawError? {
        return "", Some(ErrCryptoFailure), used;
      }
      buffer[i] := Digits[d.num];
    }
    return buffer[..], None, used;
  }

  /** Generates a token of the default length. */
  method GenerateDefault(draws: seq<Draw>) returns (token: string, err: Option<Error>, used: nat)
    ensures Outcome(token, err, used) == GenerateSpec(DefaultLength, draws)
    ensures err == None ==> |token| == 6
  {
    token, err, used := Generate(DefaultLength, draws);
  }

  /** The generator never looks past the draws it consumed: any source that
      agrees on those draws yields the same outcome, so in particular nothing
      is drawn after a failing draw. */
  lemma NoDrawAfterConsumed(length: int, draws: seq<Draw>, other: seq<Draw>)
    requires forall j :: 0 <= j < GenerateSpec(length, draws).consumed ==> At(other, j) == At(draws, j)
    ensures GenerateSpec(length, other) == GenerateSpec(length, draws)
  {
  }
}
