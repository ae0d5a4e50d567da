# docextractors core, modelled in Dafny

This project models the parts of the `docextractors` package that carry logic of
their own. The rest of the package is glue around pdfplumber, pandas, click and
Spark.

- `pdf_parser.dfy` (module `PdfParser`) models `pdfparser.py`. It covers the
  non-ASCII stripping of page text, the generator `extract_text_from_pdf`, and
  the cell and row filter of `extract_table_rows`. It also covers the page
  enumeration of `parse`, which yields one `PageData` per page. pdfplumber's
  outputs are inputs here: a page's text is `Some(text)`, or `None` when
  extraction raises, and tables are sequences of rows of optional cells.
  `extract_table_rows` and `parse` are loops in the source, so they are
  methods with loop invariants. Each is proved against a specification.
  `KeepCells` and `TableRows` have lemmas for order and exact contents;
  `StripNonLatin` also has one for idempotence.
- `logging_config.dfy` (module `LoggingConfig`) models `loggingconfig.py`.
  `_get_log_level` is `ResolveLogLevel`, with lemmas for its decision table.
  The root logger is a class with a `level` field; `set_log_level` changes
  that field and `get_log_level` reads it back. `CustomFormatter.FORMATS` is a
  constant map.
- `document_unit.dfy` (module `DocumentUnits`) models `document_unit.py`. The
  `DocumentUnit` record is a datatype, and `ToDict` is `to_dict`. The inverse
  `FromDict` shows that `ToDict` is injective.
- `config.py` is modelled in `config.dfy` (module `Config`). The `.env`
  contents are an input map. `Env` builds `_env`, and `GetConfig` is
  `get_config`.
- `wrappers.dfy` holds `Option`, which models Python's `X | None`.

Choices the code fixes:

- `DocumentUnit.tables` is a list of dictionaries, as
  `src/docextractors/core/models/document_unit.py:12` annotates it.
- Page numbers in `parse` start at 0, from `enumerate`.
- `parse` yields the raw page text and does not strip it.

## Model

| member | source | states |
|---|---|---|
| PdfParser.StripNonLatin | src/docextractors/pdfextractor/pdfparser.py:20 | the result has only characters up to U+007F and is no longer than the input |
| PdfParser.StripNonLatinAppend | src/docextractors/pdfextractor/pdfparser.py:53 | stripping a concatenation is the concatenation of the stripped parts, so kept characters keep their order |
| PdfParser.StripNonLatinCounts | src/docextractors/pdfextractor/pdfparser.py:53 | each ASCII character occurs as often as in the input, and no other character occurs: exactly the non-ASCII characters are deleted |
| PdfParser.StripNonLatinKeepsAscii | src/docextractors/pdfextractor/pdfparser.py:53 | all-ASCII text is returned unchanged |
| PdfParser.StripNonLatinIdempotent | src/docextractors/pdfextractor/pdfparser.py:53 | stripping already-stripped text changes nothing |
| PdfParser.ExtractTextFromPdf | src/docextractors/pdfextractor/pdfparser.py:50-58 | yields at most one string; yields nothing exactly when extraction raises; yields the text unchanged when stripping is off, and stripped, all-ASCII text when it is on |
| PdfParser.IsSpace | src/docextractors/pdfextractor/pdfparser.py:46 | the characters `str.strip()` removes (Python's `str.isspace` set); no ASCII letter or digit is among them, and the ASCII ones lie between U+0009 and U+0020 |
| PdfParser.StripLeading | src/docextractors/pdfextractor/pdfparser.py:46 | the leading part of `strip()`: the result is a suffix of the input, everything dropped is whitespace, and it does not start with whitespace |
| PdfParser.StripTrailing | src/docextractors/pdfextractor/pdfparser.py:46 | the trailing part of `strip()`: the result is a prefix of the input, everything dropped is whitespace, and it does not end with whitespace |
| PdfParser.StripEmptyIffBlank | src/docextractors/pdfextractor/pdfparser.py:46 | `cell.strip()` is empty exactly when the cell is empty or whitespace only |
| PdfParser.Keeps | src/docextractors/pdfextractor/pdfparser.py:46 | `cell and cell.strip()` holds exactly when the cell is a string with a non-whitespace character |
| PdfParser.KeepCells | src/docextractors/pdfextractor/pdfparser.py:46 | no kept cell is empty or whitespace-only, and at most as many cells are kept as the row has |
| PdfParser.KeepCellsAppend | src/docextractors/pdfextractor/pdfparser.py:46 | the filter works cell by cell, so kept cells keep their order |
| PdfParser.KeepCellsCounts | src/docextractors/pdfextractor/pdfparser.py:46 | each non-blank string is kept, untrimmed, exactly as often as it occurs as a cell; `None` and blank cells are dropped |
| PdfParser.KeepCellsEmpty | src/docextractors/pdfextractor/pdfparser.py:46-47 | a row yields nothing exactly when none of its cells is a non-blank string |
| PdfParser.TableRows | src/docextractors/pdfextractor/pdfparser.py:43-48 | no yielded row is empty, no yielded cell is blank, and no more rows are yielded than the table has |
| PdfParser.TableRowsAppend | src/docextractors/pdfextractor/pdfparser.py:44-48 | the filter works row by row, so surviving rows keep their relative order |
| PdfParser.ExtractTableRows | src/docextractors/pdfextractor/pdfparser.py:40-48 | the loop yields exactly the rows `TableRows` specifies: non-empty, at most one per table row |
| PdfParser.Parse | src/docextractors/pdfextractor/pdfparser.py:70-104 | one `PageData` per page in page order, the i-th numbered i, with the page's raw text, its tables passed through unfiltered (`None` cells included) and method "pdfplumber"; it stops exactly at the first page whose text extraction raises |
| LoggingConfig.FormatFor | src/docextractors/loggingconfig.py:43-55 | exactly the five standard levels have a format, each colour + `LOG_FORMAT` + reset, with DEBUG and INFO grey, WARNING yellow, ERROR red and CRITICAL bold red |
| LoggingConfig.FormatsDistinguishSeverity | src/docextractors/loggingconfig.py:49-55 | two standard levels share a format exactly when they are equal or both are DEBUG or INFO |
| LoggingConfig.EnvLogLevel | src/docextractors/loggingconfig.py:76-82 | the configured value counts as one -v exactly when it is "INFO" and as two exactly when it is "DEBUG"; anything else counts as none |
| LoggingConfig.ResolveLogLevel | src/docextractors/loggingconfig.py:63-90 | the level is always WARNING, INFO or DEBUG; verbosity 1 gives INFO; any verbosity other than 0 and 1, negative ones included, gives DEBUG |
| LoggingConfig.ZeroVerbosityFollowsConfig | src/docextractors/loggingconfig.py:76-90 | at verbosity 0, exactly "INFO" gives INFO, exactly "DEBUG" gives DEBUG, and anything else, an absent or empty value included, gives WARNING |
| LoggingConfig.VerbosityOverridesConfig | src/docextractors/loggingconfig.py:84 | at any non-zero verbosity the result does not depend on LOG_LEVEL |
| LoggingConfig.MoreVerbosityIsNoLessVerbose | src/docextractors/loggingconfig.py:84-90 | with no LOG_LEVEL, the numeric level does not increase as non-negative verbosity grows |
| LoggingConfig.ExplicitVerbosityCanLowerConfiguredLevel | src/docextractors/loggingconfig.py:84-90 | with LOG_LEVEL "DEBUG", verbosity 0 gives DEBUG but verbosity 1 gives INFO |
| LoggingConfig.RootLogger.constructor | src/docextractors/loggingconfig.py:128-141 | import-time set-up: the level is resolved from the command-line verbosity, one handler is added, and propagation is off |
| LoggingConfig.RootLogger.GetLogLevel | src/docextractors/loggingconfig.py:153-155 | returns the root logger's level, which is WARNING, INFO or DEBUG |
| LoggingConfig.RootLogger.SetLogLevel | src/docextractors/loggingconfig.py:158-160 | sets the level to the resolved level for the verbosity and changes nothing else |
| LoggingConfig.SetThenGet | src/docextractors/loggingconfig.py:153-160 | after `set_log_level(v)`, `get_log_level()` returns the resolved level for v, and the handlers and propagation are unchanged |
| DocumentUnits.TablesValue | src/docextractors/core/models/document_unit.py:35 | the tables are emitted as a list holding each table dictionary unchanged |
| DocumentUnits.ToDict | src/docextractors/core/models/document_unit.py:27-39 | exactly ten keys; "unit_id" is always `None`; seven fields appear under their own names; tables and layout appear unchanged as "tables_json" and "layout_json"; a `None` name is emitted as `None` |
| DocumentUnits.TablesRoundTrip | src/docextractors/core/models/document_unit.py:35 | the emitted table list reads back as the original tables |
| DocumentUnits.RoundTrip | src/docextractors/core/models/document_unit.py:5-39 | all nine fields given to the constructor can be read back from the `to_dict` output |
| DocumentUnits.ToDictInjective | src/docextractors/core/models/document_unit.py:27-39 | units with different field values give different dictionaries |
| Config.Upper | src/docextractors/config.py:45 | upper-casing keeps the length of the key |
| Config.UpperAt | src/docextractors/config.py:45 | upper-casing acts on each character on its own |
| Config.UpperHasNoLower | src/docextractors/config.py:45 | an upper-cased key has no lower-case letter |
| Config.UpperOfNoLower | src/docextractors/config.py:45 | a key without lower-case letters is its own upper-case form |
| Config.UpperIdempotent | src/docextractors/config.py:45 | upper-casing twice is upper-casing once |
| Config.Env | src/docextractors/config.py:31-40 | the keys are the `.env` names plus "CONFIG_FILE"; "CONFIG_FILE" maps to ".env"; every other name keeps its `.env` value |
| Config.GetConfig | src/docextractors/config.py:37-45 | a key that upper-cases to "CONFIG_FILE" gives ".env"; any other key gives the `.env` value under its upper-cased name, or `None` when there is none |
| Config.GetConfigFileIsFixed | src/docextractors/config.py:31-40 | `get_config("CONFIG_FILE")` is ".env" even when the `.env` file defines CONFIG_FILE |
| Config.GetConfigIgnoresCase | src/docextractors/config.py:45 | `get_config(k)` equals `get_config(k.upper())` |
| Config.LowerCaseEntryUnreachable | src/docextractors/config.py:45 | removing a `.env` entry whose name holds a lower-case letter changes no answer of `get_config` |

## Left out

- Operator I/O is not modelled. This covers the `input()` prompts, `print`
  and the logging calls in `extract_table_rows` and `parse`. The debug walk in
  `parse` over `page.find_tables()` and `extract_table_rows` is left out too;
  it only logs rows and waits for Enter, and has no effect on the yielded
  `PageData` unless `input()` raises (EOFError at end of input).
- pdfplumber itself is not modelled. Its outputs are inputs here: `extract_text`,
  `extract_tables` and `Table.extract`. Exceptions from `extract_tables` and
  `find_tables` are not modelled; only a failing `extract_text` is.
- `PdfParser._open_pdf_file` is not modelled: it checks the filesystem and
  opens the file. The model starts from the opened document's pages.
- Config.Upper: upper-cases ASCII letters only. Python's `str.upper` also maps
  other letters, some to several characters. The lemmas about `get_config`
  hold for the model's upper-casing.
- The `.env` file read and the `Path` constants in `config.py` are not
  modelled; the `.env` contents are a parameter.
- LoggingConfig.FormatFor: a record of a non-standard level gets no format;
  what `logging.Formatter(None)` does with that is not modelled.
- The rest of `loggingconfig.py` is not modelled: the argparse call at import,
  the formatter delegation, timestamps, and the levels of the third-party
  loggers (pdfminer, pdfplumber, python_multipart). The root logger's handler
  list is only counted.
- DocumentUnits: floating-point values inside `tables` and `layout` have no
  case in `Value`.
- The ingestion script, the Delta wrapper, the Excel and PDF click commands,
  the CLI wiring and the abstract `BaseExtractor` are not modelled; they hold
  I/O and library calls only.
