/**
 * The external SQL recognizer, reduced to the state the parser context reads and writes:
 * the encoded server version, the SQL mode, the permitted character sets and the errors
 * of the last parse run. No grammar is modelled.
 */
module Recognizer {

  /** One error record as the recognizer reports it. */
  datatype ParserErrorInfo = ParserErrorInfo(message: string, charOffset: nat, line: nat, length: nat)

  class MySQLRecognizer {
    var serverVersion: int
    var sqlMode: string
    var charsets: set<string>
    var errors: seq<ParserErrorInfo>

    /** A fresh recognizer has been configured but has not parsed anything yet. */
    constructor (serverVersion: int, sqlMode: string, charsets: set<string>)
      ensures this.serverVersion == serverVersion && this.sqlMode == sqlMode
      ensures this.charsets == charsets && errors == []
    {
      this.serverVersion := serverVersion;
      this.sqlMode := sqlMode;
      this.charsets := charsets;
      errors := [];
    }

    predicate HasErrors()
      reads this
    {
      |errors| > 0
    }

    function ErrorInfo(): seq<ParserErrorInfo>
      reads this
    {
      errors
    }

    method SetSqlMode(mode: string)
      modifies this
      ensures sqlMode == mode
      ensures serverVersion == old(serverVersion) && charsets == old(charsets) && errors == old(errors)
    {
      sqlMode := mode;
    }

    method SetServerVersion(version: int)
      modifies this
      ensures serverVersion == version
      ensures sqlMode == old(sqlMode) && charsets == old(charsets) && errors == old(errors)
    {
      serverVersion := version;
    }

    /** Stands for a parse run: its outcome, the list of errors it found, is a parameter. */
    method Parse(found: seq<ParserErrorInfo>)
      modifies this
      ensures errors == found
      ensures serverVersion == old(serverVersion) && sqlMode == old(sqlMode) && charsets == old(charsets)
    {
      errors := found;
    }
  }
}
