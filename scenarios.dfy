/**
 * Clients of the parser context: what a caller can conclude from the contracts alone,
 * one scenario per documented behaviour.
 */
module Scenarios {
  import opened Versions
  import opened Charsets
  import opened Recognizer
  import opened ParserServices

  /** Everything a parser context and its recognizer hold. */
  datatype ContextState = ContextState(
    version: VersionRef, sqlMode: string,
    serverVersion: int, recognizerMode: string, charsets: set<string>, errors: seq<ParserErrorInfo>)

  method Snapshot(context: ParserContext) returns (state: ContextState)
    ensures state == ContextState(context.version, context.sqlMode,
      context.recognizer.serverVersion, context.recognizer.sqlMode,
      context.recognizer.charsets, context.recognizer.errors)
  {
    var recognizer := context.recognizer;
    state := ContextState(context.version, context.sqlMode,
      recognizer.serverVersion, recognizer.sqlMode, recognizer.charsets, recognizer.errors);
  }

  /**
   * The mode is empty before any change and afterwards is the last one set; setting the
   * same mode a second time leaves the whole state as the first call left it.
   */
  method SqlModeLifecycle(catalog: seq<string>, version: VersionRef, mode: string)
    returns (initial: string, afterOnce: string, onceState: ContextState, twiceState: ContextState)
    ensures initial == "" && afterOnce == mode
    ensures onceState == twiceState
    ensures onceState.sqlMode == mode && onceState.recognizerMode == mode
    ensures onceState.version == version && onceState.serverVersion == Encode(version)
  {
    var context := new ParserContext(catalog, version, false);
    initial := context.GetSqlMode();
    context.UseSqlMode(mode);
    afterOnce := context.GetSqlMode();
    onceState := Snapshot(context);
    context.UseSqlMode(mode);
    twiceState := Snapshot(context);
  }

  /**
   * Moving a context built without a version (treated as 5.5.1) to 5.6.0 changes the
   * version the recognizer uses, but the character sets removed at construction stay removed.
   */
  method VersionChangeKeepsCharsets() returns (charsets: set<string>, serverVersion: int)
    ensures serverVersion == 50600
    ensures charsets == {"utf8", "latin1"}
  {
    var context := new ParserContext(["utf8", "UTF8MB4", "utf16", "utf32", "latin1"], NoVersion, true);
    FilterExamples();
    context.UseServerVersion(Version(5, 6, 0));
    charsets, serverVersion := context.recognizer.charsets, context.recognizer.serverVersion;
  }

  /**
   * After a parse run, errors fetched with offset 0 carry the recognizer's positions,
   * those fetched with an offset carry them moved by it, and asking again gives the same answer.
   */
  method ErrorsAfterParse(catalog: seq<string>, found: seq<ParserErrorInfo>, offset: nat)
    returns (plain: seq<ParserErrorEntry>, shifted: seq<ParserErrorEntry>, again: seq<ParserErrorEntry>)
    ensures |plain| == |shifted| == |found|
    ensures forall i :: 0 <= i < |found| ==>
      plain[i].charOffset == found[i].charOffset
      && shifted[i] == plain[i].(charOffset := plain[i].charOffset + offset)
    ensures again == shifted
    ensures found == [] ==> shifted == []
  {
    var context := new ParserContext(catalog, NoVersion, false);
    context.recognizer.Parse(found);
    plain := context.GetErrorsWithOffset(0);
    shifted := context.GetErrorsWithOffset(offset);
    again := context.GetErrorsWithOffset(offset);
  }
}
