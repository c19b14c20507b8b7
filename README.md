# ParserContext of the MySQL Workbench parser services, in Dafny

This project models `ParserContext` from `backend/wbpublic/grtsqlparser/mysql_parser_services.cpp`.
It is the layer between the IDE and the external MySQL recognizer. It does four things:

- It encodes a server version `major.minor.release` as one integer. A missing minor number
  counts as 5 and a missing release number as 0. An invalid version is taken as 5.5.1 (50501).
- It lowercases the host's character-set catalog into a set. Below 5.5.3 (50503) it drops
  `utf8mb4`, `utf16` and `utf32` from that set.
- It keeps the SQL mode and the version, and forwards changes to the recognizer.
- It turns the recognizer's error records into caller-facing entries, with each position
  shifted by an offset.

Files and modules:

- `versions.dfy` (`Versions`): the encoding, written once as `Encode`. It also holds `Decode`,
  which reads a triple back from an encoding and is used to state that two-digit triples are
  recoverable (and hence encoded injectively), and the lemmas on ordering and collisions.
- `charsets.dfy` (`Charsets`): ASCII lowercasing, the lowercased name set and the 5.5.3 filter.
- `recognizer.dfy` (`Recognizer`): the recognizer, reduced to four fields: the encoded version,
  the SQL mode, the character sets and the errors of the last parse. `has_errors()` is
  `|errors| > 0`. A parse run is a method whose outcome (the error list) is a parameter.
- `parser_services.dfy` (`ParserServices`): the `ParserContext` class and the specification
  function `WithOffset` for error translation.
- `scenarios.dfy` (`Scenarios`): client methods. They show what a caller can conclude from the
  contracts: the SQL-mode lifecycle, the version change that keeps the charset set, and the
  error offsets.

The version encoding appears twice in the source, in the constructor and in
`use_server_version`. Both are modelled by the single function `Versions.Encode`. The
constructor and `UseServerVersion` each ensure that the recognizer's version equals `Encode`
of the version they were given.

`use_server_version` does not filter the character sets again, and the model keeps that
behaviour. A context built for 5.5.1 and moved to 5.6.0 still lacks `utf8mb4`, `utf16` and
`utf32` (`Scenarios.VersionChangeKeepsCharsets`). One might expect the filtered set to be
recomputed whenever the version changes. The code does not do that, and the model follows the
code.

The encoding is strictly increasing in (major, minor, release) only when minor and release are
given and below 100. Outside that range encodings collide: 5.100.0 and 6.0.0 both give 60000,
and 5.-1.-1 equals 5.5.0 by design. A missing minor number can also invert the order: 5.-1.7 is
older than 5.5.0 but encodes as 50507, above 50500. `Versions.EncodeCollisions` proves these
facts, and `Versions.EncodeOrder` is stated for the two-digit range.

## Model

| member | source | states |
|---|---|---|
| Versions.Encode | backend/wbpublic/grtsqlparser/mysql_parser_services.cpp:39-51 | the single encoding used at construction and at version change (lines 90-102 repeat it): no valid version gives 50501, and a triple with two-digit minor and release numbers can be read back from its encoding |
| Versions.EncodeExamples | backend/wbpublic/grtsqlparser/mysql_parser_services.cpp:39-51 | an invalid version encodes as 50501, the same as 5.5.1; 5.5.3 gives 50503, a major-only 5 gives 50500, 5.6.0 gives 50600 |
| Versions.UnspecifiedParts | backend/wbpublic/grtsqlparser/mysql_parser_services.cpp:43-48 | any negative minor number encodes like minor 5, and any negative release number encodes like release 0 |
| Versions.EncodeOrder | backend/wbpublic/grtsqlparser/mysql_parser_services.cpp:39-52 | for two-digit triples, one encoding is below another exactly when its version is lexicographically older, and two encodings are equal exactly when the versions are |
| Versions.EncodeCollisions | backend/wbpublic/grtsqlparser/mysql_parser_services.cpp:42-49 | outside two-digit parts the encoding does not follow version order: 5.100.0 and 6.0.0 both give 60000, a major-only 5 equals 5.5.0, and 5.-1.7 is older than 5.5.0 but encodes above it |
| Versions.GateAt553 | backend/wbpublic/grtsqlparser/mysql_parser_services.cpp:37-52 | a two-digit version passes the `>= 50503` gate exactly when it is not older than 5.5.3 |
| Charsets.ToLower | backend/wbpublic/grtsqlparser/mysql_parser_services.cpp:35 | lowercasing keeps the length, turns every ASCII upper-case letter into its lower-case counterpart and keeps every other character |
| Charsets.ToLowerOfLower | backend/wbpublic/grtsqlparser/mysql_parser_services.cpp:35 | lowercasing a name that is already lower case returns it unchanged |
| Charsets.ToLowerCaseInsensitive | backend/wbpublic/grtsqlparser/mysql_parser_services.cpp:35 | two names lowercase to the same name exactly when they differ only in the case of ASCII letters |
| Charsets.LowerNames | backend/wbpublic/grtsqlparser/mysql_parser_services.cpp:33-35 | the set built by inserting one lowercased name per catalog entry has at most as many names as the catalog has entries |
| Charsets.LowerNamesMembership | backend/wbpublic/grtsqlparser/mysql_parser_services.cpp:33-35 | a name is in the lowercased set exactly when some catalog entry lowercases to it |
| Charsets.LowerNamesAreLower | backend/wbpublic/grtsqlparser/mysql_parser_services.cpp:35 | every name in the lowercased set is lower case |
| Charsets.FilterCharsets | backend/wbpublic/grtsqlparser/mysql_parser_services.cpp:52-57 | the filter only removes names; below 50503 it removes exactly `utf8mb4`, `utf16` and `utf32` (absent ones are simply not there); from 50503 on it keeps the whole set |
| Charsets.FilteredMembership | backend/wbpublic/grtsqlparser/mysql_parser_services.cpp:33-57 | a name is in the filtered set exactly when some catalog entry lowercases to it and it is not one of the three 5.5.3 sets under an older version; so `UTF8MB4` is removed like `utf8mb4` |
| Charsets.CaseInsensitiveRemoval | backend/wbpublic/grtsqlparser/mysql_parser_services.cpp:33-57 | below 50503, a catalog entry spelled like `utf8mb4`, `utf16` or `utf32` in any letter case is lowercased to that name and removed |
| Charsets.FilterExamples | backend/wbpublic/grtsqlparser/mysql_parser_services.cpp:33-57 | the catalog utf8, UTF8MB4, utf16, utf32, latin1 filters to {utf8, latin1} at 50501 and to all five lowercased names at 50600 |
| Recognizer.MySQLRecognizer.constructor | backend/wbpublic/grtsqlparser/mysql_parser_services.cpp:59 | the recognizer starts with the given version, mode and character sets, and with no errors |
| Recognizer.MySQLRecognizer.SetSqlMode | backend/wbpublic/grtsqlparser/mysql_parser_services.cpp:74 | sets the mode and leaves the version, character sets and errors alone |
| Recognizer.MySQLRecognizer.SetServerVersion | backend/wbpublic/grtsqlparser/mysql_parser_services.cpp:103 | sets the version and leaves the mode, character sets and errors alone |
| ParserServices.WithOffset | backend/wbpublic/grtsqlparser/mysql_parser_services.cpp:114-126 | one entry per recognizer error, in the same order, with the position plus the offset and the message, line and length copied |
| ParserServices.WithOffsetShift | backend/wbpublic/grtsqlparser/mysql_parser_services.cpp:122-123 | the entries for offset k are the entries for offset 0, in the same order and number, each with its position moved by k |
| ParserServices.ParserContext.constructor | backend/wbpublic/grtsqlparser/mysql_parser_services.cpp:28-60 | stores the version and the case flag, leaves the mode empty, and creates a fresh recognizer with `Encode(version)`, an empty mode, the filtered lowercased catalog and no errors |
| ParserServices.ParserContext.UseSqlMode | backend/wbpublic/grtsqlparser/mysql_parser_services.cpp:71-75 | the stored mode and the recognizer's mode become the new mode; the version, charsets and errors are unchanged; the context stays consistent |
| ParserServices.ParserContext.GetSqlMode | backend/wbpublic/grtsqlparser/mysql_parser_services.cpp:79-82 | returns the stored mode, which is the recognizer's mode whenever the context is consistent |
| ParserServices.ParserContext.UseServerVersion | backend/wbpublic/grtsqlparser/mysql_parser_services.cpp:86-104 | stores the version and sets the recognizer's version to `Encode(version)`; the mode, the character sets chosen at construction and the errors are unchanged |
| ParserServices.ParserContext.GetErrorsWithOffset | backend/wbpublic/grtsqlparser/mysql_parser_services.cpp:112-129 | returns nothing when the recognizer has no errors; otherwise one entry per error, in order, with the position shifted by the offset and the other fields copied (equal to `WithOffset`); it changes no state |
| Scenarios.SqlModeLifecycle | backend/wbpublic/grtsqlparser/mysql_parser_services.cpp:59-82 | the mode is "" after construction and is the last mode set afterwards; after one call the context holds the given version and its encoding, and setting the same mode again leaves the whole context and recognizer state equal to the state after the first call |
| Scenarios.VersionChangeKeepsCharsets | backend/wbpublic/grtsqlparser/mysql_parser_services.cpp:52-104 | after moving a context from no version (5.5.1) to 5.6.0, the recognizer uses 50600 but its character sets are still {utf8, latin1} |
| Scenarios.ErrorsAfterParse | backend/wbpublic/grtsqlparser/mysql_parser_services.cpp:112-129 | after a parse, offset 0 gives the recognizer's positions, and an offset moves each of them by that amount; a repeated call returns the same entries; no errors gives no entries |

## Left out

- `MySQLParserServices::get` (lines 143-149) is not modelled. It is a lookup in the host's module registry, with a `dynamic_cast` and an exception when the module is missing.
- `MySQLParserServices::createParserContext` (lines 133-139) is not modelled separately. It only wraps the constructor in a shared pointer.
- The destructor and the `new`/`delete` ownership of the recognizer are not modelled. Dafny's heap stands in for them, and `recognizer` is a `const` field that the context alone creates.
- The recognizer's parsing and its error collection are not modelled. A parse run is `MySQLRecognizer.Parse`, which takes the resulting error list as a parameter.
- `base::tolower` is modelled as ASCII lowercasing. Locale-dependent case mapping is not modelled.
- The case-sensitivity flag is stored as the field `caseSensitive` and never read, as in the source.
- Integer widths are not modelled. The `ssize_t`/`long` version arithmetic uses unbounded `int`, and the `size_t` offsets, positions, lines and lengths use `nat`. Wrap-around in `charOffset + offset` is therefore not captured.
- The version is kept as a value. The source stores a shared reference to the host's version object (lines 30 and 88), so later changes to that object by the caller would be visible through it; this file never reads the stored version again, so nothing here depends on that.
- Versions.EncodeOrder: strict ordering and injectivity hold only for minor and release numbers from 0 to 99. Outside that range the code's encoding collides.
