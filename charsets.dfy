/**
 * Character-set names and the version-dependent filter applied to them when a parser
 * context is built. Names are compared case-insensitively by lowercasing them (ASCII only).
 */
module Charsets {

  /** The three character sets introduced in server version 5.5.3. */
  const IntroducedIn553: set<string> := {"utf8mb4", "utf16", "utf32"}

  /** Encoded version from which the three newer character sets are available. */
  const CharsetGate: int := 50503

  function LowerChar(c: char): char
  {
    if 'A' <= c <= 'Z' then (c as int + 32) as char else c
  }

  predicate IsLower(s: string)
  {
    forall i :: 0 <= i < |s| ==> !('A' <= s[i] <= 'Z')
  }

  /**
   * ASCII lowercasing: same length, every upper-case letter replaced by its lower-case
   * counterpart (32 code points further), every other character kept.
   */
  function ToLower(s: string): (r: string)
    ensures |r| == |s| && IsLower(r)
    ensures forall i :: 0 <= i < |s| && 'A' <= s[i] <= 'Z' ==> r[i] as int == s[i] as int + 32
    ensures forall i :: 0 <= i < |s| && !('A' <= s[i] <= 'Z') ==> r[i] == s[i]
  {
    seq(|s|, i requires 0 <= i < |s| => LowerChar(s[i]))
  }

  /** Lowercasing leaves an already lower-case name alone. */
  lemma ToLowerOfLower(s: string)
    requires IsLower(s)
    ensures ToLower(s) == s
  {
  }

  /** Two characters that are equal, or the same ASCII letter in different cases. */
  predicate SameIgnoringCase(a: char, b: char)
  {
    a == b
    || ('A' <= a <= 'Z' && b as int == a as int + 32)
    || ('A' <= b <= 'Z' && a as int == b as int + 32)
  }

  /** Two names that differ at most in the case of ASCII letters. */
  predicate EqualUpToAsciiCase(s: string, t: string)
  {
    |s| == |t| && forall i :: 0 <= i < |s| ==> SameIgnoringCase(s[i], t[i])
  }

  /** Lowercasing identifies exactly the names that differ only in letter case. */
  lemma ToLowerCaseInsensitive(s: string, t: string)
    ensures ToLower(s) == ToLower(t) <==> EqualUpToAsciiCase(s, t)
  {
    if ToLower(s) == ToLower(t) {
      forall i | 0 <= i < |s|
        ensures SameIgnoringCase(s[i], t[i])
      {
        assert ToLower(s)[i] == ToLower(t)[i];
      }
    }
    if EqualUpToAsciiCase(s, t) {
      forall i | 0 <= i < |s|
        ensures ToLower(s)[i] == ToLower(t)[i]
      {
        assert SameIgnoringCase(s[i], t[i]);
      }
    }
  }

  /** The set of lowercased names of a catalog, built by one insert per entry. */
  function LowerNames(catalog: seq<string>): (names: set<string>)
    ensures |names| <= |catalog|
  {
    if catalog == [] then {}
    else LowerNames(catalog[..|catalog| - 1]) + {ToLower(catalog[|catalog| - 1])}
  }

  /** A name is in the lowercased set exactly when some catalog entry lowercases to it. */
  lemma {:induction false} LowerNamesMembership(catalog: seq<string>, x: string)
    ensures x in LowerNames(catalog) <==> exists i :: 0 <= i < |catalog| && ToLower(catalog[i]) == x
  {
    if catalog != [] {
      var init := catalog[..|catalog| - 1];
      LowerNamesMembership(init, x);
      if x in LowerNames(init) {
        var i :| 0 <= i < |init| && ToLower(init[i]) == x;
        assert catalog[i] == init[i];
      } else if x in LowerNames(catalog) {
        assert ToLower(catalog[|catalog| - 1]) == x;
      } else {
        forall i | 0 <= i < |catalog|
          ensures ToLower(catalog[i]) != x
        {
          if i < |init| {
            assert catalog[i] == init[i];
          }
        }
      }
    }
  }

  /** Every name in the lowercased set is lower case. */
  lemma LowerNamesAreLower(catalog: seq<string>, x: string)
    requires x in LowerNames(catalog)
    ensures IsLower(x) && ToLower(x) == x
  {
    LowerNamesMembership(catalog, x);
  }

  /**
   * The set handed to the recognizer: below the 5.5.3 gate the three newer character
   * sets are erased (each only if present), otherwise the set is kept whole.
   */
  function FilterCharsets(names: set<string>, encoded: int): (kept: set<string>)
    ensures kept <= names
    ensures encoded < CharsetGate ==> kept == names - IntroducedIn553 && kept !! IntroducedIn553
    ensures encoded >= CharsetGate ==> kept == names
  {
    if encoded < CharsetGate then names - {"utf8mb4"} - {"utf16"} - {"utf32"} else names
  }

  /**
   * Membership in the filtered set, stated on the catalog itself: a name survives exactly
   * when some catalog entry lowercases to it and it is not one of the three newer sets
   * under an older version. In particular "UTF8MB4" is removed like "utf8mb4".
   */
  lemma FilteredMembership(catalog: seq<string>, encoded: int, x: string)
    ensures x in FilterCharsets(LowerNames(catalog), encoded)
      <==> (exists i :: 0 <= i < |catalog| && ToLower(catalog[i]) == x)
           && !(encoded < CharsetGate && x in IntroducedIn553)
  {
    LowerNamesMembership(catalog, x);
  }

  /**
   * A catalog entry spelled like one of the three 5.5.3 character sets in any letter case
   * is removed below the gate.
   */
  lemma CaseInsensitiveRemoval(catalog: seq<string>, i: int, encoded: int, name: string)
    requires 0 <= i < |catalog| && encoded < CharsetGate
    requires name in IntroducedIn553 && EqualUpToAsciiCase(catalog[i], name)
    ensures ToLower(catalog[i]) == name
    ensures name !in FilterCharsets(LowerNames(catalog), encoded)
  {
    ToLowerCaseInsensitive(catalog[i], name);
    ToLowerOfLower(name);
  }

  /** The sample catalog filtered below and above the gate. */
  lemma FilterExamples()
    ensures FilterCharsets(LowerNames(["utf8", "UTF8MB4", "utf16", "utf32", "latin1"]), 50501)
      == {"utf8", "latin1"}
    ensures FilterCharsets(LowerNames(["utf8", "UTF8MB4", "utf16", "utf32", "latin1"]), 50600)
      == {"utf8", "utf8mb4", "utf16", "utf32", "latin1"}
  {
    SampleLowerNames();
  }

  lemma SampleLowerNames()
    ensures LowerNames(["utf8", "UTF8MB4", "utf16", "utf32", "latin1"])
      == {"utf8", "utf8mb4", "utf16", "utf32", "latin1"}
  {
    SamplePrefix4();
    SampleToLower();
    LowerNamesAppend(["utf8", "UTF8MB4", "utf16", "utf32"], "latin1");
    assert ["utf8", "UTF8MB4", "utf16", "utf32"] + ["latin1"] == ["utf8", "UTF8MB4", "utf16", "utf32", "latin1"];
  }

  lemma SamplePrefix4()
    ensures LowerNames(["utf8", "UTF8MB4", "utf16", "utf32"]) == {"utf8", "utf8mb4", "utf16", "utf32"}
  {
    SamplePrefix2();
    SampleToLower();
    LowerNamesAppend(["utf8", "UTF8MB4"], "utf16");
    assert ["utf8", "UTF8MB4"] + ["utf16"] == ["utf8", "UTF8MB4", "utf16"];
    LowerNamesAppend(["utf8", "UTF8MB4", "utf16"], "utf32");
    assert ["utf8", "UTF8MB4", "utf16"] + ["utf32"] == ["utf8", "UTF8MB4", "utf16", "utf32"];
  }

  lemma SamplePrefix2()
    ensures LowerNames(["utf8", "UTF8MB4"]) == {"utf8", "utf8mb4"}
  {
    SampleToLower();
    LowerNamesAppend([], "utf8");
    assert [] + ["utf8"] == ["utf8"];
    LowerNamesAppend(["utf8"], "UTF8MB4");
    assert ["utf8"] + ["UTF8MB4"] == ["utf8", "UTF8MB4"];
  }

  /** One more catalog entry adds its lowercased name. */
  lemma LowerNamesAppend(catalog: seq<string>, name: string)
    ensures LowerNames(catalog + [name]) == LowerNames(catalog) + {ToLower(name)}
  {
    assert (catalog + [name])[..|catalog|] == catalog;
  }

  lemma SampleToLower()
    ensures ToLower("UTF8MB4") == "utf8mb4"
    ensures ToLower("utf8") == "utf8" && ToLower("utf16") == "utf16"
    ensures ToLower("utf32") == "utf32" && ToLower("latin1") == "latin1"
  {
    assert ToLower("UTF8MB4") == "utf8mb4";
  }
}
