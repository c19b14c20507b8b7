/**
 * The parser context: it configures one recognizer for a server version, a SQL mode and
 * a filtered set of character sets, and translates the recognizer's errors into
 * caller-facing entries shifted by an offset.
 */
module ParserServices {
  import opened Versions
  import opened Charsets
  import opened Recognizer

  /** A caller-facing error entry. */
  datatype ParserErrorEntry = ParserErrorEntry(message: string, charOffset: nat, line: nat, length: nat)

  /**
   * The entries for a list of recognizer errors: one per error, in the same order, with the
   * position moved by offset and everything else copied.
   */
  function WithOffset(native: seq<ParserErrorInfo>, offset: nat): (entries: seq<ParserErrorEntry>)
    ensures |entries| == |native|
    ensures forall i :: 0 <= i < |native| ==>
      entries[i].message == native[i].message
      && entries[i].charOffset == native[i].charOffset + offset
      && entries[i].line == native[i].line
      && entries[i].length == native[i].length
  {
    if native == [] then []
    else
      var e := native[0];
      [ParserErrorEntry(e.message, e.charOffset + offset, e.line, e.length)] + WithOffset(native[1..], offset)
  }

  /** Asking with offset k gives the entries for offset 0, each moved by k. */
  lemma WithOffsetShift(native: seq<ParserErrorInfo>, offset: nat)
    ensures |WithOffset(native, offset)| == |WithOffset(native, 0)|
    ensures forall i :: 0 <= i < |native| ==>
      WithOffset(native, offset)[i]
      == WithOffset(native, 0)[i].(charOffset := WithOffset(native, 0)[i].charOffset + offset)
  {
  }

  class ParserContext {
    var version: VersionRef
    const caseSensitive: bool
    var sqlMode: string
    const recognizer: MySQLRecognizer

    /** The recognizer runs with the encoding of the stored version and the stored mode. */
    ghost predicate Valid()
      reads this, recognizer
    {
      recognizer.serverVersion == Encode(version) && recognizer.sqlMode == sqlMode
    }

    /**
     * Lowercases the catalog names into a set, drops the three 5.5.3 character sets for
     * older versions and creates the recognizer with the encoded version and an empty mode.
     */
    constructor (catalog: seq<string>, version: VersionRef, caseSensitive: bool)
      ensures this.version == version && this.caseSensitive == caseSensitive && sqlMode == ""
      ensures fresh(recognizer)
      ensures recognizer.serverVersion == Encode(version) && recognizer.sqlMode == ""
      ensures recognizer.charsets == FilterCharsets(LowerNames(catalog), Encode(version))
      ensures recognizer.errors == []
      ensures Valid()
    {
      var filtered: set<string> := {};
      for i := 0 to |catalog|
        invariant filtered == LowerNames(catalog[..i])
      {
        assert catalog[..i + 1][..i] == catalog[..i];
        filtered := filtered + {ToLower(catalog[i])};
      }
      assert catalog[..|catalog|] == catalog;

      var serverVersion := Encode(version);
      if serverVersion < CharsetGate {
        filtered := filtered - {"utf8mb4"};
        filtered := filtered - {"utf16"};
        filtered := filtered - {"utf32"};
      }

      this.version := version;
      this.caseSensitive := caseSensitive;
      sqlMode := "";
      recognizer := new MySQLRecognizer(serverVersion, "", filtered);
    }

    /** Stores the mode and forwards it to the recognizer; nothing else changes. */
    method UseSqlMode(mode: string)
      modifies this, recognizer
      ensures sqlMode == mode && recognizer.sqlMode == mode
      ensures version == old(version)
      ensures recognizer.serverVersion == old(recognizer.serverVersion)
      ensures recognizer.charsets == old(recognizer.charsets)
      ensures recognizer.errors == old(recognizer.errors)
      ensures old(Valid()) ==> Valid()
    {
      sqlMode := mode;
      recognizer.SetSqlMode(mode);
    }

    /** The last mode stored; while the context is consistent, the one the recognizer uses. */
    function GetSqlMode(): (mode: string)
      reads this, recognizer
      ensures Valid() ==> mode == recognizer.sqlMode
    {
      sqlMode
    }

    /**
     * Stores the version and pushes its encoding to the recognizer. The character sets
     * chosen at construction are kept as they are, even when the new version is on the
     * other side of the 5.5.3 gate.
     */
    method UseServerVersion(version: VersionRef)
      modifies this, recognizer
      ensures this.version == version && recognizer.serverVersion == Encode(version)
      ensures sqlMode == old(sqlMode)
      ensures recognizer.sqlMode == old(recognizer.sqlMode)
      ensures recognizer.charsets == old(recognizer.charsets)
      ensures recognizer.errors == old(recognizer.errors)
      ensures old(recognizer.sqlMode == sqlMode) ==> Valid()
    {
      this.version := version;
      var serverVersion := Encode(version);
      recognizer.SetServerVersion(serverVersion);
    }

    /**
     * The errors of the last parse run, each moved by offset: nothing when the recognizer
     * has no errors, otherwise one entry per recognizer error in the same order.
     */
    method GetErrorsWithOffset(offset: nat) returns (errors: seq<ParserErrorEntry>)
      ensures !recognizer.HasErrors() ==> errors == []
      ensures |errors| == |recognizer.errors|
      ensures forall i :: 0 <= i < |errors| ==>
        errors[i].message == recognizer.errors[i].message
        && errors[i].charOffset == recognizer.errors[i].charOffset + offset
        && errors[i].line == recognizer.errors[i].line
        && errors[i].length == recognizer.errors[i].length
      ensures errors == WithOffset(recognizer.errors, offset)
    {
      errors := [];
      if recognizer.HasErrors() {
        var info := recognizer.ErrorInfo();
        for i := 0 to |info|
          invariant |errors| == i
          invariant forall j :: 0 <= j < i ==>
            errors[j] == ParserErrorEntry(info[j].message, info[j].charOffset + offset, info[j].line, info[j].length)
        {
          var e := info[i];
          errors := errors + [ParserErrorEntry(e.message, e.charOffset + offset, e.line, e.length)];
        }
      }
    }
  }
}
