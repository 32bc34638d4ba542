/** The authenticator-app (TOTP) engine: HOTP dynamic truncation (section
    5.3 of RFC 4226) over 30-second time steps (section 4 of RFC 6238), with
    a window that accepts the current step and the two steps before it.
    HMAC-SHA1 and Base32 decoding are supplied as functions. */
module Totp {
  import opened Lang
  import opened Text
  import opened Preferences

  /** An HMAC-SHA1 digest: always 20 bytes. */
  type Hash20 = s: seq<byte> | |s| == 20 witness seq(20, _ => 0 as byte)

  /** The two foreign calls: Base32 decoding of the secret and HMAC-SHA1(key, message). */
  datatype Crypto = Crypto(base32Decode: string -> seq<byte>, hmacSha1: (seq<byte>, seq<byte>) -> Hash20)

  const DEFAULT_CODE_LENGTH: nat := 6
  /** The width `String.format` pads to, written as a literal in the source. */
  const FORMAT_WIDTH: nat := 6
  const TIME_STEP_MILLIS: int := 30000
  const NON_KEY_PREFERENCE: string := "non-key 2FA preference was passed to TotpService's confirmCode()"
  const CODE_INCORRECT: string := "code was incorrect!"

  // Big-endian byte conversions

  /** The unsigned number a byte string denotes, most significant byte first. */
  function BigEndianValue(s: seq<byte>): nat
  {
    if s == [] then 0 else BigEndianValue(s[..|s| - 1]) * 256 + s[|s| - 1] as int
  }

  /** The `n` low-order bytes of `u`, most significant first. */
  function ToBigEndian(u: nat, n: nat): (r: seq<byte>)
    ensures |r| == n
  {
    if n == 0 then [] else ToBigEndian(u / 256, n - 1) + [(u % 256) as byte]
  }

  lemma {:induction false} BigEndianRoundTrip(u: nat, n: nat)
    requires u < Pow(256, n)
    ensures BigEndianValue(ToBigEndian(u, n)) == u
  {
    if n > 0 {
      var r := ToBigEndian(u, n);
      assert r[..n - 1] == ToBigEndian(u / 256, n - 1);
      assert u / 256 < Pow(256, n - 1);
      BigEndianRoundTrip(u / 256, n - 1);
    }
  }

  lemma {:induction false} BigEndianBound(s: seq<byte>)
    ensures BigEndianValue(s) < Pow(256, |s|)
  {
    if s != [] {
      BigEndianBound(s[..|s| - 1]);
    }
  }

  /** The two's-complement reading of an unsigned value below `modulus`
      (2^32 for an `int`, 2^64 for a `long`). */
  function Signed(u: int, modulus: int): int
  {
    if u >= modulus / 2 then u - modulus else u
  }

  lemma BytePowers()
    ensures Pow(256, 4) == TWO_TO_32 && Pow(256, 8) == TWO_TO_64
  {
    assert Pow(256, 2) == 0x1_0000;
    assert Pow(256, 4) == 256 * (256 * Pow(256, 2));
    assert Pow(256, 6) == 256 * (256 * Pow(256, 4));
    assert Pow(256, 8) == 256 * (256 * Pow(256, 6));
  }

  /** `longToBytes`: `ByteBuffer.putLong` writes the eight bytes of the
      two's-complement `x`, most significant first; reading them back as a
      signed big-endian number gives `x` again. */
  function LongToBytes(x: int): (r: seq<byte>)
    requires IsLong(x)
    ensures |r| == 8
    ensures BigEndianValue(r) == x % TWO_TO_64
    ensures Signed(BigEndianValue(r), TWO_TO_64) == x
  {
    BytePowers();
    BigEndianRoundTrip(x % TWO_TO_64, 8);
    ToBigEndian(x % TWO_TO_64, 8)
  }

  /** `bytesToInt`: `ByteBuffer.getInt` reads the first four bytes as a
      signed big-endian 32-bit number; fewer than four bytes underflow. */
  function BytesToInt(bytes: seq<byte>): (r: Result<int, Exception>)
    ensures r.Failure? <==> |bytes| < 4
    ensures r.Failure? ==> r.error == BufferUnderflow
    ensures r.Success? ==> -TWO_TO_31 <= r.value < TWO_TO_31
    ensures r.Success? ==> r.value % TWO_TO_32 == BigEndianValue(bytes[..4])
  {
    if |bytes| < 4 then Failure(BufferUnderflow)
    else
      BigEndianBound(bytes[..4]);
      BytePowers();
      Success(Signed(BigEndianValue(bytes[..4]), TWO_TO_32))
  }

  // Dynamic truncation

  /** The offset of dynamic truncation: the low four bits of the last byte.
      Four bytes from it always lie inside a 20-byte digest. */
  function Offset(hash: Hash20): (o: nat)
    ensures o <= 15 && o + 4 <= |hash|
  {
    hash[|hash| - 1] as int % 16
  }

  /** Dynamic truncation: the 31-bit number in the four bytes at the offset,
      sign bit cleared (`& 0x7FFFFFFF`). */
  function DynamicTruncation(hash: Hash20): (r: nat)
    ensures r < TWO_TO_31
  {
    var o := Offset(hash);
    BigEndianValue(hash[o..o + 4]) % TWO_TO_31
  }

  /** The truncated value is what `bytesToInt` reads at the offset, with the
      sign bit masked off. */
  lemma TruncationIsMaskedInt(hash: Hash20)
    ensures BytesToInt(hash[Offset(hash)..]).Success?
    ensures DynamicTruncation(hash) == BytesToInt(hash[Offset(hash)..]).value % TWO_TO_31
  {
    var o := Offset(hash);
    assert hash[o..][..4] == hash[o..o + 4];
    var v := BytesToInt(hash[o..]).value;
    var u := BigEndianValue(hash[o..o + 4]);
    assert u == v % TWO_TO_32;
    assert v % TWO_TO_31 == (v % TWO_TO_32) % TWO_TO_31;
  }

  /** Shifting left by eight and OR-ing a byte into the cleared low bits
      adds the byte to 256 times the value, while the value stays below 2^56.
      This is why `GenerateCode` writes the 64-bit shift-and-or step of the
      code generator as `* 256 +` on integers. */
  lemma ShiftOrIsMultiplyAdd(p: bv64, b: bv64)
    requires p < 0x100_0000_0000_0000 && b < 256
    ensures (p << 8) | b == p * 256 + b
  {
  }

  /** Masking with 0x7FFFFFFF keeps the remainder modulo 2^31. This is why
      `GenerateCode` and `DynamicTruncation` write the sign-bit mask as
      `% TWO_TO_31` on integers. */
  lemma MaskIsRemainder(p: bv64)
    ensures p & 0x7FFF_FFFF == p % 0x8000_0000
  {
  }

  /** HOTP value: the truncated number reduced modulo `10^codeLength`. */
  function HotpValue(hash: Hash20, codeLength: nat): (v: nat)
    ensures v < Pow(10, codeLength) && v < TWO_TO_31
  {
    var truncated := DynamicTruncation(hash);
    var modulus := Pow(10, codeLength);
    assert truncated % modulus <= truncated by { RemainderAtMost(truncated, modulus); }
    truncated % modulus
  }

  /** A remainder never exceeds the number divided. */
  lemma RemainderAtMost(a: nat, m: nat)
    requires m > 0
    ensures a % m <= a
  {
  }

  /** `generateHash`: HMAC-SHA1 keyed by the decoded secret over the eight
      bytes of the time step. */
  function GenerateHash(crypto: Crypto, secret: string, interval: int): Hash20
    requires IsLong(interval)
  {
    crypto.hmacSha1(crypto.base32Decode(secret), LongToBytes(interval))
  }

  /** The code for one time step, zero-padded to `codeLength` digits. */
  function TotpCode(crypto: Crypto, secret: string, interval: int, codeLength: nat): string
    requires IsLong(interval)
  {
    PadLeft(NatToDecimal(HotpValue(GenerateHash(crypto, secret, interval), codeLength)), codeLength)
  }

  /** The code for one time step as the source formats it: padded to six
      characters whatever `codeLength` is. */
  function TotpCodeAsWritten(crypto: Crypto, secret: string, interval: int, codeLength: nat): (r: string)
    requires IsLong(interval)
    ensures |r| >= FORMAT_WIDTH && AllDigits(r)
    ensures DecimalValue(r) == HotpValue(GenerateHash(crypto, secret, interval), codeLength)
  {
    var digits := NatToDecimal(HotpValue(GenerateHash(crypto, secret, interval), codeLength));
    var zeros := if |digits| < FORMAT_WIDTH then FORMAT_WIDTH - |digits| else 0;
    LeadingZerosKeepValue(zeros, digits);
    assert PadLeft(digits, FORMAT_WIDTH) == Zeros(zeros) + digits;
    PadLeft(digits, FORMAT_WIDTH)
  }

  /** A code has exactly `codeLength` decimal digits and denotes the HOTP value. */
  lemma CodeShape(crypto: Crypto, secret: string, interval: int, codeLength: nat)
    requires IsLong(interval) && codeLength >= 1
    ensures |TotpCode(crypto, secret, interval, codeLength)| == codeLength
    ensures AllDigits(TotpCode(crypto, secret, interval, codeLength))
    ensures DecimalValue(TotpCode(crypto, secret, interval, codeLength))
         == HotpValue(GenerateHash(crypto, secret, interval), codeLength)
  {
    var v := HotpValue(GenerateHash(crypto, secret, interval), codeLength);
    var s := NatToDecimal(v);
    DecimalLengthBound(v, codeLength);
    LeadingZerosKeepValue(codeLength - |s|, s);
  }

  /** With a code length below six, every code the source formats has six
      characters, so it never equals the `codeLength`-digit code. */
  lemma AsWrittenPaddingIgnoresCodeLength(crypto: Crypto, secret: string, interval: int, codeLength: nat)
    requires IsLong(interval) && 1 <= codeLength < FORMAT_WIDTH
    ensures |TotpCodeAsWritten(crypto, secret, interval, codeLength)| == FORMAT_WIDTH
    ensures TotpCodeAsWritten(crypto, secret, interval, codeLength) != TotpCode(crypto, secret, interval, codeLength)
  {
    var v := HotpValue(GenerateHash(crypto, secret, interval), codeLength);
    DecimalLengthBound(v, codeLength);
    CodeShape(crypto, secret, interval, codeLength);
  }

  /** With a code length above six, every HOTP value below 10^6 is
      formatted to six characters only, so the formatted code again differs
      from the `codeLength`-digit code (42 with eight digits: "000042"
      instead of "00000042"). */
  lemma AsWrittenDropsLeadingZeros(crypto: Crypto, secret: string, interval: int, codeLength: nat)
    requires IsLong(interval) && codeLength > FORMAT_WIDTH
    requires HotpValue(GenerateHash(crypto, secret, interval), codeLength) < Pow(10, FORMAT_WIDTH)
    ensures |TotpCodeAsWritten(crypto, secret, interval, codeLength)| == FORMAT_WIDTH
    ensures TotpCodeAsWritten(crypto, secret, interval, codeLength) != TotpCode(crypto, secret, interval, codeLength)
  {
    var v := HotpValue(GenerateHash(crypto, secret, interval), codeLength);
    DecimalLengthBound(v, FORMAT_WIDTH);
    CodeShape(crypto, secret, interval, codeLength);
  }

  /** For the default length of six the corrected and the written formats agree. */
  lemma DefaultLengthAgrees(crypto: Crypto, secret: string, interval: int)
    requires IsLong(interval)
    ensures TotpCodeAsWritten(crypto, secret, interval, DEFAULT_CODE_LENGTH)
         == TotpCode(crypto, secret, interval, DEFAULT_CODE_LENGTH)
  {
  }

  // Time steps and the acceptance window

  /** `currentTimeMillis / 30000`: the current time step (truncating division). */
  function Interval(now: int): (i: int)
    requires IsLong(now)
    ensures IsLong(i) && IsLong(i - 2)
  {
    TruncDiv(now, TIME_STEP_MILLIS)
  }

  /** From the epoch on, the step is the number of whole 30-second periods
      elapsed; two instants in the same period share a step. */
  lemma IntervalBracketsNow(now: int, other: int)
    requires 0 <= now && IsLong(now) && IsLong(other)
    ensures Interval(now) * TIME_STEP_MILLIS <= now < Interval(now) * TIME_STEP_MILLIS + TIME_STEP_MILLIS
    ensures Interval(now) * TIME_STEP_MILLIS <= other < Interval(now) * TIME_STEP_MILLIS + TIME_STEP_MILLIS
            ==> Interval(other) == Interval(now)
  {
  }

  /** Whether the trimmed submission is the code of the current step or of
      one of the two steps before it. Later steps are not consulted. */
  predicate TotpAccepts(crypto: Crypto, secret: string, codeToCheck: string, now: int, codeLength: nat)
    requires IsLong(now)
  {
    var code := Trim(codeToCheck);
    var i := Interval(now);
    || code == TotpCode(crypto, secret, i, codeLength)
    || code == TotpCode(crypto, secret, i - 1, codeLength)
    || code == TotpCode(crypto, secret, i - 2, codeLength)
  }

  /** The acceptance window spelled out for three given candidate codes. */
  lemma AcceptsOneOfThree(crypto: Crypto, secret: string, codeToCheck: string, now: int, codeLength: nat,
                          current: string, previous: string, beforePrevious: string)
    requires IsLong(now)
    requires current == TotpCode(crypto, secret, Interval(now), codeLength)
    requires previous == TotpCode(crypto, secret, Interval(now) - 1, codeLength)
    requires beforePrevious == TotpCode(crypto, secret, Interval(now) - 2, codeLength)
    ensures TotpAccepts(crypto, secret, codeToCheck, now, codeLength)
            <==> Trim(codeToCheck) in {current, previous, beforePrevious}
  {
  }

  /** At the default length of six, the window accepts exactly the codes the
      program formats itself: the three steps' codes padded to six
      characters. */
  lemma {:induction false} DefaultLengthAcceptsAsWritten(crypto: Crypto, secret: string, codeToCheck: string, now: int)
    requires IsLong(now)
    ensures TotpAccepts(crypto, secret, codeToCheck, now, DEFAULT_CODE_LENGTH)
            <==> Trim(codeToCheck) in {TotpCodeAsWritten(crypto, secret, Interval(now), DEFAULT_CODE_LENGTH),
                                       TotpCodeAsWritten(crypto, secret, Interval(now) - 1, DEFAULT_CODE_LENGTH),
                                       TotpCodeAsWritten(crypto, secret, Interval(now) - 2, DEFAULT_CODE_LENGTH)}
  {
    var i := Interval(now);
    DefaultLengthAgrees(crypto, secret, i);
    DefaultLengthAgrees(crypto, secret, i - 1);
    DefaultLengthAgrees(crypto, secret, i - 2);
    AcceptsOneOfThree(crypto, secret, codeToCheck, now, DEFAULT_CODE_LENGTH,
      TotpCode(crypto, secret, i, DEFAULT_CODE_LENGTH),
      TotpCode(crypto, secret, i - 1, DEFAULT_CODE_LENGTH),
      TotpCode(crypto, secret, i - 2, DEFAULT_CODE_LENGTH));
  }

  /** A code is all digits, so `trim` leaves it unchanged. */
  lemma CodeIsTrimmed(crypto: Crypto, secret: string, interval: int, codeLength: nat)
    requires IsLong(interval) && codeLength >= 1
    ensures Trim(TotpCode(crypto, secret, interval, codeLength)) == TotpCode(crypto, secret, interval, codeLength)
  {
    CodeShape(crypto, secret, interval, codeLength);
    DigitsAreTrimmed(TotpCode(crypto, secret, interval, codeLength));
  }

  /** The code of each of the three steps in the window is accepted. */
  lemma {:induction false} WindowCodesAccepted(crypto: Crypto, secret: string, now: int, codeLength: nat)
    requires IsLong(now) && codeLength >= 1
    ensures TotpAccepts(crypto, secret, TotpCode(crypto, secret, Interval(now), codeLength), now, codeLength)
    ensures TotpAccepts(crypto, secret, TotpCode(crypto, secret, Interval(now) - 1, codeLength), now, codeLength)
    ensures TotpAccepts(crypto, secret, TotpCode(crypto, secret, Interval(now) - 2, codeLength), now, codeLength)
  {
    var i := Interval(now);
    CodeIsTrimmed(crypto, secret, i, codeLength);
    CodeIsTrimmed(crypto, secret, i - 1, codeLength);
    CodeIsTrimmed(crypto, secret, i - 2, codeLength);
  }

  /** Blanks around the submitted code do not change the verdict. */
  lemma {:induction false} AcceptanceIgnoresPadding(crypto: Crypto, secret: string, code: string, now: int, codeLength: nat, pre: string, post: string)
    requires IsLong(now)
    requires forall k :: 0 <= k < |pre| ==> Blank(pre[k])
    requires forall k :: 0 <= k < |post| ==> Blank(post[k])
    ensures TotpAccepts(crypto, secret, pre + code + post, now, codeLength) == TotpAccepts(crypto, secret, code, now, codeLength)
  {
    TrimIgnoresBlankPadding(pre, code, post);
  }

  /** The TOTP service. The HMAC-SHA1 and Base32 primitives it calls are
      supplied at construction as `crypto`. */
  class TotpService {
    const crypto: Crypto
    const codeLength: nat

    constructor (crypto: Crypto)
      ensures this.crypto == crypto && codeLength == DEFAULT_CODE_LENGTH
    {
      this.crypto := crypto;
      codeLength := DEFAULT_CODE_LENGTH;
    }

    constructor WithCodeLength(crypto: Crypto, codeLength: nat)
      ensures this.crypto == crypto && this.codeLength == codeLength
    {
      this.crypto := crypto;
      this.codeLength := codeLength;
    }

    /** `generateCode`: read four bytes at the offset into an accumulator,
        clear the sign bit, reduce, and format. */
    method GenerateCode(secret: string, interval: int) returns (code: string)
      requires IsLong(interval)
      ensures code == TotpCode(crypto, secret, interval, codeLength)
    {
      var hash := GenerateHash(crypto, secret, interval);
      var partialHash := 0;
      var offset := Offset(hash);  // the low nibble of the last byte
      for i := 0 to 4
        invariant partialHash == BigEndianValue(hash[offset..offset + i])
      {
        assert BigEndianValue(hash[offset..offset + i + 1]) == partialHash * 256 + hash[offset + i] as int by {
          assert hash[offset..offset + i + 1][..i] == hash[offset..offset + i];
        }
        // shift the accumulator one byte left and bring the next hash byte in
        partialHash := partialHash * 256 + hash[offset + i] as int;
      }
      // clear the sign bit
      partialHash := partialHash % TWO_TO_31;
      assert partialHash == DynamicTruncation(hash);
      partialHash := partialHash % Pow(10, codeLength);
      assert partialHash == HotpValue(hash, codeLength);
      code := PadLeft(NatToDecimal(partialHash), codeLength);
    }

    /** `confirmCode`: a non-key preference fails the assertion; otherwise
        the trimmed code must be the code of the current step or of one of
        the two before it, else `BadCredentialsException`. */
    method ConfirmCode(preference: Pref, codeToCheck: Option<string>, now: int)
      returns (r: Outcome<Exception>)
      requires IsLong(now)
      ensures !preference.isKey ==> r == Fail(IllegalArgument(NON_KEY_PREFERENCE))
      ensures preference.isKey && codeToCheck.None? ==> r == Fail(NullPointer)
      ensures preference.isKey && codeToCheck.Some? ==>
                r == if TotpAccepts(crypto, preference.data, codeToCheck.value, now, codeLength)
                     then Pass else Fail(BadCredentials(CODE_INCORRECT))
    {
      if !preference.isKey {
        return Fail(IllegalArgument(NON_KEY_PREFERENCE));
      }
      if codeToCheck.None? {
        return Fail(NullPointer);
      }
      var code := Trim(codeToCheck.value);
      var secret := preference.data;
      var currentInterval := Interval(now);
      AcceptsOneOfThree(crypto, secret, codeToCheck.value, now, codeLength,
        TotpCode(crypto, secret, currentInterval, codeLength),
        TotpCode(crypto, secret, currentInterval - 1, codeLength),
        TotpCode(crypto, secret, currentInterval - 2, codeLength));
      var candidate := GenerateCode(secret, currentInterval);
      if candidate == code {
        return Pass;
      }
      candidate := GenerateCode(secret, currentInterval - 1);
      if candidate == code {
        return Pass;
      }
      candidate := GenerateCode(secret, currentInterval - 2);
      if candidate == code {
        return Pass;
      }
      r := Fail(BadCredentials(CODE_INCORRECT));
    }
  }
}
