# otpgen in Dafny

A model of the Go package `otpgen`, which generates numeric one-time-password
tokens. `Generate(length)` rejects a length outside `[MinLength, MaxLength]` =
`[1, 1000]` with `ErrInvalidLength`. Otherwise it allocates a byte buffer of that
length and fills it position by position: each position asks the secure source
for a number in `[0, 10)` and stores the matching character of `"0123456789"`.
The first failing draw ends the call with `("", ErrCryptoFailure)`.
`GenerateDefault()` is `Generate(DefaultLength)`, with `DefaultLength` = 6.

The secure source (`rand.Int(rand.Reader, 10)`) is modelled only by its
contract. It is given to the generator as the sequence of outcomes it would
produce. Each outcome is `DrawError` or `Drawn(num)` with `0 <= num < 10`. If the
generator reads past the end of that sequence, it gets `DrawError`, as from an
exhausted source. This makes a call deterministic: the model states the error
that comes back, the number of draws taken (`used` / `consumed`) and the exact
token.

- `otpgen.dfy`, module `Otpgen`: the constants, the two errors, the reference
  behaviour `GenerateSpec`, and the method `Generate`. `Generate` fills a fresh
  `array<char>` in a `for` loop and is proved equal to `GenerateSpec`.
  `GenerateDefault` delegates to it.
- `otpgen_test.dfy`, module `OtpgenTest`: the tests' `isNumeric` criterion. This
  is stated as the predicate `IsNumeric` and as the loop `CheckNumeric`. The
  module also holds the tests' table of valid and invalid lengths and the
  default-length test, stated as lemmas over every sequence of draws, plus three
  concrete runs.

The code at otpgen.go:31-37 uses one strategy: one `rand.Int(rand.Reader, 10)`
draw per digit. The error names follow otpgen.go:17-18.

## Model

| member | source | states |
|---|---|---|
| `Otpgen.GenerateSpec` | otpgen.go:22-40 | `ErrInvalidLength` comes back exactly when the length is outside [1, 1000], with an empty token and no draw taken. A call succeeds exactly when the length is valid and each of its first `length` draws succeeds. On success exactly `length` draws are taken and position i holds `'0' + d_i`. On a failed draw the token is empty, the error is `ErrCryptoFailure`, every earlier draw succeeded and the failing draw is the last one taken. |
| `Otpgen.Generate` | otpgen.go:22-40 | The buffer-filling loop returns exactly the token, error and draw count of `GenerateSpec` for every length and every source. |
| `Otpgen.GenerateDefault` | otpgen.go:43-45 | Returns exactly what `Generate(6)` returns for the same source, so a success has six characters. |
| `Otpgen.FirstFailure` | otpgen.go:31-35 | The position where the loop stops: every earlier draw succeeded, and, if it is below the length, the draw at that position failed. |
| `Otpgen.TokenOf` | otpgen.go:29-39 | The token built from `length` successful draws has that length, and position i holds `'0' + d_i`. |
| `Otpgen.DigitChar` | otpgen.go:27-36 | Indexing `"0123456789"` with a drawn number in [0, 10) stays in bounds and yields the decimal digit `'0' + num`. |
| `Otpgen.NoDrawAfterConsumed` | otpgen.go:31-35 | Two sources that agree on the draws a call consumed give the same outcome. So nothing after the consumed draws, and in particular nothing after a failing draw, influences the call. |
| `OtpgenTest.CheckNumeric` | otpgen_test.go:106-113 | The character loop returns true exactly when the string is non-empty and every character is in '0'..'9'. |
| `OtpgenTest.SuccessIsNumeric` | otpgen_test.go:39-49 | Every successful call yields a numeric token of exactly the requested length. |
| `OtpgenTest.ValidTableLengthsSucceed` | otpgen_test.go:16-18 | Lengths 1, 6 and 1000 succeed with a numeric token of that length whenever the source does not fail. |
| `OtpgenTest.InvalidTableLengthsRejected` | otpgen_test.go:19-21 | Lengths 0, -1 and 1001 give `("", ErrInvalidLength)` and take no draw, whatever the source holds. |
| `OtpgenTest.DefaultIsSixDigits` | otpgen_test.go:55-67 | A successful default call yields a numeric token of length `DefaultLength`, which is 6. |
| `OtpgenTest.SixDrawsSpellToken` | otpgen.go:31-39 | Six successful draws 4, 0, 9, 1, 7, 3 give the token "409173" with six draws taken. The seventh recorded outcome is not drawn. |
| `OtpgenTest.FailingDrawStopsGeneration` | otpgen.go:32-35 | With a failing third draw, a length-6 call takes three draws and returns `("", ErrCryptoFailure)`. |
| `OtpgenTest.ExhaustedSourceFails` | otpgen.go:32-35 | A source that runs out after two draws fails a length-6 call on the third draw. |

## Left out

- Randomness quality is not modelled. That covers uniformity, independence and unpredictability of the digits, and the uniqueness and distribution tests at otpgen_test.go:70-104. These are statistical properties and a deterministic model cannot state them.
- The internals of `crypto/rand` and `math/big` are not modelled, including the rejection sampling inside `rand.Int`. Only its contract is kept: an error, or a number in [0, 10).
- The error values are opaque tags; their message text is not modelled.
- Go's platform-width `int` is modelled as an unbounded integer. `Generate` only compares `length` with 1 and 1000 before `make` uses it, so no overflow can arise.
- Test parallelism (`t.Parallel`), the benchmarks in benchmark_test.go and the printed output of example_test.go are test harness code and are not modelled.
