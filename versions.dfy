/**
 * Server-version encoding used by the parser context for feature gating.
 *
 * A version triple is turned into one integer, major * 10000 + minor * 100 + release,
 * so that versions can be compared against fixed thresholds such as 50503 (5.5.3).
 * A negative minor or release number means "not given": a missing minor number counts
 * as 5 (so a major-only version sits in the middle of its range) and a missing release
 * number counts as 0. Without a valid version the encoding of 5.5.1 is assumed.
 */
module Versions {

  /** The version reference handed to the parser context: absent/invalid, or a triple. */
  datatype VersionRef = NoVersion | Version(major: int, minor: int, release: int)

  /** Encoding assumed when no valid version is supplied (5.5.1). */
  const DefaultEncoded: int := 50501

  /** A triple whose minor and release numbers are given and have at most two digits. */
  predicate TwoDigit(v: VersionRef)
  {
    v.Version? && 0 <= v.minor < 100 && 0 <= v.release < 100
  }

  /** Lexicographic order on (major, minor, release). */
  predicate LexLess(v: VersionRef, w: VersionRef)
    requires v.Version? && w.Version?
  {
    v.major < w.major
    || (v.major == w.major && v.minor < w.minor)
    || (v.major == w.major && v.minor == w.minor && v.release < w.release)
  }

  /** Reads a triple back out of an encoded version (the inverse of Encode on two-digit triples). */
  function Decode(code: int): (v: VersionRef)
    ensures TwoDigit(v)
  {
    Version(code / 10000, code % 10000 / 100, code % 100)
  }

  /**
   * The one place where the encoding arithmetic is written down. A triple with two-digit
   * minor and release numbers can be read back from its encoding.
   */
  function Encode(v: VersionRef): (code: int)
    ensures v.NoVersion? ==> code == DefaultEncoded
    ensures TwoDigit(v) ==> Decode(code) == v
  {
    match v
    case NoVersion => DefaultEncoded
    case Version(major, minor, release) =>
      DigitsReadBack(major, minor, release);
      major * 10000
      + (if minor > -1 then minor * 100 else 500)
      + (if release > -1 then release else 0)
  }

  /** Two-digit minor and release numbers can be read back from the combined number. */
  lemma DigitsReadBack(major: int, minor: int, release: int)
    ensures 0 <= minor < 100 && 0 <= release < 100 ==>
      Decode(major * 10000 + minor * 100 + release) == Version(major, minor, release)
  {
    if 0 <= minor < 100 && 0 <= release < 100 {
      var low := minor * 100 + release;
      DivModUnique(major * 10000 + low, 10000, major, low);
      DivModUnique(low, 100, minor, release);
      DivModUnique(major * 10000 + low, 100, major * 100 + minor, release);
    }
  }

  /** Division by a positive number is determined by any quotient/remainder pair. */
  lemma DivModUnique(n: int, d: int, q: int, r: int)
    requires d > 0 && 0 <= r < d && n == q * d + r
    ensures n / d == q && n % d == r
  {
    var q', r' := n / d, n % d;
    assert n == q' * d + r';
    if q' < q {
      assert (q - q') * d >= d by { MulAtLeast(q - q', d); }
      assert false;
    } else if q' > q {
      assert (q' - q) * d >= d by { MulAtLeast(q' - q, d); }
      assert false;
    }
  }

  lemma MulAtLeast(k: int, d: int)
    requires k >= 1 && d > 0
    ensures k * d >= d
  {
  }

  /** An absent version behaves exactly like 5.5.1; the documented sample values. */
  lemma EncodeExamples()
    ensures Encode(NoVersion) == 50501 == Encode(Version(5, 5, 1))
    ensures Encode(Version(5, 5, 3)) == 50503
    ensures Encode(Version(5, -1, -1)) == 50500
    ensures Encode(Version(5, 6, 0)) == 50600
  {
  }

  /** A missing minor number is read as 5 and a missing release number as 0. */
  lemma UnspecifiedParts(major: int, minor: int, release: int)
    ensures minor < 0 ==> Encode(Version(major, minor, release)) == Encode(Version(major, 5, release))
    ensures release < 0 ==> Encode(Version(major, minor, release)) == Encode(Version(major, minor, 0))
  {
  }

  /**
   * Outside two-digit parts the encoding is not faithful to version order: 5.100.0 and
   * 6.0.0 collide, a major-only 5 equals 5.5.0, and 5.-1.7 is older than 5.5.0 yet
   * encodes above it.
   */
  lemma EncodeCollisions()
    ensures Encode(Version(5, 100, 0)) == Encode(Version(6, 0, 0)) == 60000
    ensures Encode(Version(5, -1, -1)) == Encode(Version(5, 5, 0))
    ensures LexLess(Version(5, -1, 7), Version(5, 5, 0))
      && Encode(Version(5, -1, 7)) == 50507 > Encode(Version(5, 5, 0))
  {
  }

  /**
   * On two-digit triples the encoding is strictly increasing in lexicographic order,
   * and it is injective: comparing encodings is comparing versions.
   */
  lemma EncodeOrder(v: VersionRef, w: VersionRef)
    requires TwoDigit(v) && TwoDigit(w)
    ensures LexLess(v, w) <==> Encode(v) < Encode(w)
    ensures v == w <==> Encode(v) == Encode(w)
  {
  }

  /** A two-digit version passes the 5.5.3 gate exactly when it is not older than 5.5.3. */
  lemma GateAt553(v: VersionRef)
    requires TwoDigit(v)
    ensures Encode(v) >= 50503 <==> !LexLess(v, Version(5, 5, 3))
  {
    EncodeOrder(v, Version(5, 5, 3));
  }
}
