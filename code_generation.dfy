/** The two code-generation strategies. Both append six pseudo-random decimal
    digits; `Math.random()` is modelled by the draws it would return, each in
    [0, 1). */
module CodeGeneration {
  import opened Text

  /** The strategy classes have no fields; a value names which one is used. */
  datatype GenerationStrategy =
    | SixDigitAuthCodeGenerationStrategy
    | TwoFactorAuthCodeGenerationStrategyImpl

  const CODE_LENGTH: nat := 6

  predicate IsDraw(r: real) {
    0.0 <= r < 1.0
  }

  predicate AreDraws(draws: seq<real>) {
    forall k :: 0 <= k < |draws| ==> IsDraw(draws[k])
  }

  /** `(int) (r * 10)` for a draw `r`: a digit 0..9. */
  function DigitOf(r: real): (d: nat)
    requires IsDraw(r)
    ensures d < 10
    ensures d as real <= r * 10.0 < d as real + 1.0
  {
    (r * 10.0).Floor
  }

  /** The code a sequence of draws yields: one digit character per draw. */
  function CodeOf(draws: seq<real>): (code: string)
    requires AreDraws(draws)
    ensures |code| == |draws| && AllDigits(code)
  {
    seq(|draws|, k requires 0 <= k < |draws| => DigitChar(DigitOf(draws[k])))
  }

  /** `generateCode`: six iterations, each appending the digit of one draw.
      Only the first six draws are consumed; nothing else is read or changed. */
  method GenerateCode(strategy: GenerationStrategy, random: seq<real>) returns (code: string)
    requires |random| >= CODE_LENGTH && AreDraws(random)
    ensures code == CodeOf(random[..CODE_LENGTH])
    ensures |code| == 6 && AllDigits(code)
  {
    code := "";
    for i := 0 to CODE_LENGTH
      invariant code == CodeOf(random[..i])
    {
      var newDigit := DigitOf(random[i]);
      code := code + [DigitChar(newDigit)];
    }
  }

  /** Every digit string is the code of some draws: the strategy can yield
      each of the 10^6 six-digit codes. */
  lemma EveryCodeReachable(code: string)
    requires AllDigits(code)
    ensures exists draws :: AreDraws(draws) && CodeOf(draws) == code
  {
    var draws := seq(|code|, k requires 0 <= k < |code| => (code[k] as int - '0' as int) as real / 10.0);
    forall k | 0 <= k < |code|
      ensures IsDraw(draws[k]) && DigitChar(DigitOf(draws[k])) == code[k]
    {
      var d := code[k] as int - '0' as int;
      assert draws[k] * 10.0 == d as real;
    }
    assert CodeOf(draws) == code;
  }
}
