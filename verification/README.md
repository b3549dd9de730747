# Fixed-width transaction files, modelled in Dafny

The system reads and edits a fixed-width file of 120-character records. A record is a
line whose first two characters name its kind:

- `01` is a HEADER: name, surname, patronymic and address;
- `02` is a TRANSACTION: a six-digit counter, an amount of twelve zero-filled digits of
  cents, a three-letter currency (`USD`, `EUR` or `GBP`) and a reserved filler;
- `03` is a FOOTER: the transaction count and the control sum of the amounts.

Every kind fills columns 0 to 118 with its fields. A formatted line ends with the two
characters backslash and `n`, which brings it to 120 characters.

The system handles these files in two iterations, and the model covers both. The
codec lives in `src/record_parser.py` and is used by the first iteration. The newer
iteration carries its own copy of the field table (`src/core.py:21-42`) and of the line
formatting (`src/core.py:162-183`). The two copies are identical to the codec's, so the
model reuses the codec's table and formatting for both. `Core.OtherKindsAgree` and
`Core.FixedWidthFile.FormatRecord` state that agreement.

- **The codec** is the `RecordParser` module (`src/record_parser.py`). It holds the
  field table, classifies a line by its prefix, parses a line into a field map (each
  field's columns stripped) and formats a map back (the amount zero-filled, every other
  field padded with spaces).
- **The document layer** is the `FixedWidthFile` module (`src/fixed_width_file.py`). Its
  class keeps the file's lines and a transaction counter. It has these operations:
  - reading checks every line;
  - adding a transaction inserts it before the last footer and rewrites that footer;
  - setting a value edits the first matching record and then updates the footer.
- **The newer iteration** is the `Core` module (`src/core.py`). Its class classifies,
  parses and validates the lines itself. It renumbers the transactions in read order and
  files the records by kind. Adding a transaction numbers it one past the largest
  counter in the file. Setting a value rewrites every record line.

Three support modules complete the model:

- `PyStr` models the Python string and number operations the code relies on: `strip`,
  slicing, `ljust`, `zfill`, `str` and `int` of a whole number, and a decimal text
  converted to cents.
- `Layout` holds the record kinds, the field table, the errors and the classification.
- `Wrappers` holds the `Option` and `Result` types.

Each class is modelled with state that its methods update:

- `file` is the lines the file currently holds;
- `written` logs every line sequence written back;
- `transactionCounter` is the running count;
- `data` (in `Core` only) holds the records filed by kind.

Each method is proved against a specification function on the old state. The properties
of that function are proved as lemmas. Amounts that the code takes as a `Decimal` are
integer cents in the model.

Three behaviours of the code are kept as written:

- `Core`'s add operation sets the footer's `total_count` to the new counter, not to a
  count of transactions;
- `Core`'s set operation never touches the footer;
- the document layer's set operation updates the footer only after it has written the
  lines, so that update is never written.

Neither add operation checks the currency. Lemmas state what follows from that.
`FixedWidthFile.TransactionLineProcessed` shows a line added with another currency is
rejected when the file is next read.

## Model

| member | source | states |
|---|---|---|
| Layout.Fields | src/record_parser.py:15-36 | every kind's table starts with `field_id` in columns 0-2, and its last field ends at column 118 |
| Layout.FieldsLayout | src/record_parser.py:15-36 | each kind's fields tile columns 0 to 118 contiguously, with distinct names, none of them `type` |
| Layout.TilesBounds | src/core.py:21-42 | every field of a tiled table has a non-empty column range inside the record |
| Layout.GetRecordType | src/record_parser.py:40-56 | a line is classified as the kind whose prefix equals its first two characters; it is rejected with that prefix exactly when no kind has it |
| Layout.ClassifyDiscriminator | src/core.py:56-74 | a line that starts with a kind's prefix is classified as that kind |
| PyStr.Strip | src/record_parser.py:68 | the result has no surrounding whitespace, is no longer than the input, and a string without surrounding whitespace is returned unchanged |
| PyStr.StripIsBothEnds | src/record_parser.py:68 | strip is stripping the right end after the left; each end-strip removes only whitespace and stops at a non-space |
| PyStr.StripPadded | src/record_parser.py:88 | a stripped value padded with spaces strips back to itself |
| PyStr.Slice | src/record_parser.py:68 | Python slicing: the range when it lies inside the string, the tail when the end runs past it, empty otherwise |
| PyStr.LJustShape | src/record_parser.py:88 | `ljust` keeps the value at the front and fills the rest of the width with spaces |
| PyStr.ZFillShape | src/record_parser.py:86 | `zfill` keeps an unsigned value at the end behind the zeros it adds; a value with a leading `+` or `-` keeps that sign in front of the zeros (`"-5".zfill(4)` is `"-005"`) |
| PyStr.NatToString | src/fixed_width_file.py:91 | `str(n)` is a non-empty digit string whose value is `n`, without a leading zero unless it is `"0"` |
| PyStr.NatToStringFits | src/core.py:211 | a number below `10^w` has at most `w` digits, so `06d` and `012d` fill their widths exactly |
| PyStr.DigitsValueZeros | src/fixed_width_file.py:156 | leading zeros do not change a digit string's value |
| PyStr.PyIntDigits | src/core.py:93 | `int()` of a non-empty digit string is its value |
| PyStr.PyIntZFill | src/fixed_width_file.py:155-156 | `int()` reads a zero-filled `str(n)` back as `n` |
| PyStr.ZFillNatInjective | src/fixed_width_file.py:204-206 | different numbers zero-filled to the same width give different texts |
| PyStr.DecimalCentsOfDigits | src/core.py:268 | a whole number of units converts to one hundred times its value in cents |
| RecordParser.ParseLine | src/record_parser.py:58-69 | the field loop computes `Parse`: `type` set to the kind, then each field's columns stripped |
| RecordParser.ParseLineFields | src/record_parser.py:58-69 | a parsed record has exactly `type` and the kind's field names as keys; `type` is the kind name and each field holds its columns stripped |
| RecordParser.FormatLine | src/record_parser.py:71-90 | the field loop computes `Format`: the fields encoded in table order |
| RecordParser.FormatLength | src/record_parser.py:71-90 | a formatted record is at least 118 characters, and exactly 118 if and only if every value fits its field |
| RecordParser.FormatColumns | src/record_parser.py:82-89 | when every value fits, each field's columns hold its value (the amount zero-filled, the others space-padded), and a missing key gives zeros or spaces |
| RecordParser.FormatIgnoresOtherKeys | src/record_parser.py:82-83 | two records that agree on the table's fields format alike, whatever other keys they hold |
| RecordParser.FormatThenParse | src/record_parser.py:58-90 | formatting a fitting record and parsing it back gives every stripped field again, the amount zero-filled to twelve |
| RecordParser.ParseThenFormat | src/record_parser.py:58-90 | parsing a line whose fields are padded as the formatter pads them and formatting it back gives the line's first 118 characters |
| RecordParser.PaddedRoundTrip | src/record_parser.py:68 | a space-padded field stripped and padded back to its width is unchanged |
| RecordParser.StripEncode | src/record_parser.py:85-88 | an encoded field strips back to its value, or to the zero-filled value for the amount |
| RecordParser.ParseIgnoresTail | src/record_parser.py:67-68 | characters after column 118 do not change a parse |
| RecordParser.ParsedFits | src/record_parser.py:58-69 | every parsed field fits its width and has no surrounding whitespace |
| RecordParser.FormattedLine | src/fixed_width_file.py:103 | a fitting record formatted and followed by the two-character terminator is 120 characters and parses as the record alone |
| RecordParser.ParseFieldId | src/record_parser.py:68 | a parsed `field_id` is the line's first two characters stripped |
| RecordParser.FormatFieldId | src/record_parser.py:82-89 | a formatted line starts with the `field_id` padded to two characters |
| RecordParser.FormatStartsWith | src/record_parser.py:82-89 | a two-character `field_id` is the prefix of the formatted line |
| FixedWidthFile.FixedWidthFile.constructor | src/fixed_width_file.py:21-30 | a new instance holds the file's lines, has written nothing, and counts the lines that start with `02` |
| FixedWidthFile.FixedWidthFile.InitializeTransactionCounter | src/fixed_width_file.py:181-192 | the loop counts the lines that start with `02` |
| FixedWidthFile.CountAppend | src/fixed_width_file.py:189-191 | the count over two stretches of lines is the sum of their counts |
| FixedWidthFile.FixedWidthFile.CheckLine | src/fixed_width_file.py:53-59 | one line is stripped, length-checked, classified, parsed and validated, as `ProcessLine` states |
| FixedWidthFile.FixedWidthFile.ProcessContent | src/fixed_width_file.py:42-62 | the lines are processed in order; the records are returned, or the first error is raised, and the counter grows by the TRANSACTION lines that succeeded |
| FixedWidthFile.FixedWidthFile.Read | src/fixed_width_file.py:32-40 | reading processes the file's current lines and changes nothing but the counter |
| FixedWidthFile.ProcessAll | src/fixed_width_file.py:51-62 | processing yields one record and one kind per line it gets through, never more than the lines |
| FixedWidthFile.ProcessAllSucceeds | src/fixed_width_file.py:42-62 | processing succeeds if and only if every line is accepted on its own |
| FixedWidthFile.ProcessAllRecords | src/fixed_width_file.py:51-62 | when every line is accepted, the records are the lines' parses in file order, one per line |
| FixedWidthFile.ProcessAllFirstError | src/fixed_width_file.py:52-59 | the first rejected line decides the error, and the records gathered are those of the lines before it |
| FixedWidthFile.ProcessAllStops | src/fixed_width_file.py:52-56 | once a line is rejected, the lines after it change nothing |
| FixedWidthFile.LastFooter | src/fixed_width_file.py:175-179 | the footer search finds the last line whose first two characters strip to `03`, and none when no line does |
| FixedWidthFile.FooterTest | src/fixed_width_file.py:176 | the footer test on a line holds if and only if the line is a footer line |
| FixedWidthFile.FixedWidthFile.FindFooter | src/fixed_width_file.py:166-179 | returns the last footer's index and its parse, or raises when there is no footer |
| FixedWidthFile.FixedWidthFile.UpdateFooter | src/fixed_width_file.py:142-164 | the last footer is replaced by its rewrite with the given count and the sum raised by the amount; a missing footer or a control sum that is not a whole number raises |
| FixedWidthFile.UpdatedFooterReadsBack | src/fixed_width_file.py:155-161 | a rewritten footer is 120 characters, and its count and control sum read back as the numbers written, its other fields unchanged |
| FixedWidthFile.FooterRewriteReadsBack | src/fixed_width_file.py:153-161 | a footer line rewritten with a count and an added amount reads back with that count and the old sum plus the amount |
| FixedWidthFile.FooterRewriteStart | src/fixed_width_file.py:161 | a rewritten footer is still found by the footer search |
| FixedWidthFile.FixedWidthFile.AddTransaction | src/fixed_width_file.py:78-108 | with a footer, the new TRANSACTION is inserted before the last footer, the footer is rewritten, the lines are written and the counter goes up by one; without a footer nothing changes; a bad control sum raises and nothing is written; the counter stays equal to the file's TRANSACTION lines |
| FixedWidthFile.FixedWidthFile.Commit | src/fixed_width_file.py:96-108 | new lines are written and counted; no footer, or an error, leaves the file and the counter as they were |
| FixedWidthFile.FixedWidthFile.InsertTransaction | src/fixed_width_file.py:88-106 | computes the lines the add operation writes, as `AddedLines` states |
| FixedWidthFile.AddedLinesShape | src/fixed_width_file.py:102-106 | the new lines are those before the footer, the new TRANSACTION line, the rewritten footer, then the lines after it |
| FixedWidthFile.AddedCount | src/fixed_width_file.py:105-108 | an add adds exactly one line that starts with `02`, so counter and file stay in step |
| FixedWidthFile.InsertBeforeFooter | src/fixed_width_file.py:105 | after the insertion the footer is still the last footer line, one place further on |
| FixedWidthFile.NewTransactionFits | src/fixed_width_file.py:89-95 | a new transaction's fields fit their columns while the counter has six digits, the amount twelve and the currency three characters |
| FixedWidthFile.TransactionLineReadsBack | src/fixed_width_file.py:89-104 | the new TRANSACTION line is 120 characters and reads back with its counter zero-filled, its amount in cents and its currency |
| FixedWidthFile.TransactionLineClean | src/fixed_width_file.py:102-104 | the new line has no surrounding whitespace and is classified as a TRANSACTION |
| FixedWidthFile.TransactionLineProcessed | src/fixed_width_file.py:89-104 | processing accepts the new line if and only if its currency is allowed; otherwise it raises for that currency |
| FixedWidthFile.TransactionLineMatches | src/fixed_width_file.py:194-206 | the new line matches a counter `m` if and only if `m` is its own counter |
| FixedWidthFile.FirstMatch | src/fixed_width_file.py:125-133 | the search yields a line that matches the counter |
| FixedWidthFile.FirstMatchIsFirst | src/fixed_width_file.py:125-133 | no line before the one found matches, and no line matches when none is found |
| FixedWidthFile.FixedWidthFile.FindMatch | src/fixed_width_file.py:125-127 | returns the first matching line's index and its parse, or none |
| FixedWidthFile.FixedWidthFile.SetValue | src/fixed_width_file.py:110-140 | without a match nothing is written and the result is false; otherwise only the first matching line is replaced, the lines are written, and the footer update follows on lines that are not written again; the counter is unchanged |
| FixedWidthFile.FixedWidthFile.FinishEdit | src/fixed_width_file.py:135-139 | after the write, the footer update raises on a value that is not a number or on a missing or bad footer, and otherwise gives true |
| FixedWidthFile.EditedLineReadsBack | src/fixed_width_file.py:128-131 | the edited line is 120 characters and reads back with the new value in the edited field (zero-filled for the amount) and every other field as before |
| FixedWidthFile.EditedFits | src/fixed_width_file.py:130 | a record with one stripped value that fits its field still fits every field |
| Core.FixedWidthFile.constructor | src/core.py:44-54 | a new instance has no records, a zero count, and has written nothing |
| Core.FixedWidthFile.CheckFieldLoop | src/core.py:88-111 | the field loop computes `CheckFields` over the kind's table |
| Core.FixedWidthFile.CheckValue | src/core.py:90-111 | one field's check gives the error `FieldError` names, or else the value `FieldValue` stores |
| Core.CheckFieldsOk | src/core.py:88-111 | the field loop succeeds if and only if no field's text is rejected |
| Core.CheckFieldsKeys | src/core.py:88-111 | a successful field loop has exactly the table's names as keys |
| Core.CheckFieldsValues | src/core.py:88-111 | a successful field loop stores every field's value: the amount as the digits of its number, others as their text |
| Core.CheckFieldsStops | src/core.py:88-107 | once a field is rejected, later fields change nothing |
| Core.CheckFieldsFirstError | src/core.py:88-107 | the first rejected field in table order decides the error |
| Core.FixedWidthFile.ParseLine | src/core.py:76-116 | parsing computes `ParseRecord` from the running count; the count goes up by one exactly for an accepted TRANSACTION |
| Core.ParseRecordOk | src/core.py:76-116 | a parse succeeds if and only if no field's text is rejected |
| Core.ParseRecordKeys | src/core.py:87-111 | an accepted record has exactly the table's field names as keys |
| Core.ParseRecordCounter | src/core.py:112-114 | an accepted TRANSACTION's counter is the new count zero-filled to six, whatever its columns held |
| Core.ParseRecordValues | src/core.py:88-111 | every other field of an accepted record holds the value of its text |
| Core.TransactionParseErrors | src/core.py:90-107 | a TRANSACTION line raises for an amount that is not a whole number, else for a currency that is not allowed, and otherwise parses |
| Core.AmountRaises | src/core.py:91-99 | an amount that is not a whole number raises with that text |
| Core.CurrencyRaises | src/core.py:100-106 | a whole-number amount followed by a disallowed currency raises with that currency |
| Core.TransactionAccepted | src/core.py:90-109 | a whole-number amount and an allowed currency parse |
| Core.ParseRecordCurrency | src/core.py:100-107 | an accepted TRANSACTION holds its currency columns' text, which is an allowed code |
| Core.OtherKindsParse | src/core.py:110-111 | a HEADER or FOOTER line always parses |
| Core.OtherKindsAgree | src/core.py:110-111 | a HEADER or FOOTER parses to the codec's fields and formats as the codec's record does |
| Core.ParsedRecordValid | src/core.py:118-130 | validation never rejects a record the parse accepted |
| Core.ParsedTransactionFits | src/core.py:88-114 | an accepted TRANSACTION fits its columns with stripped fields while its number has at most six digits |
| Core.FixedWidthFile.FormatRecord | src/core.py:162-183 | a record is formatted as the codec formats it, followed by the two characters backslash and `n` |
| Core.FixedWidthFile.ReadRecordLine | src/core.py:145-154 | one line is read as `ReadLine` states: a stripped line of the record length is classified, parsed, validated and filed; any other line raises |
| Core.FixedWidthFile.Read | src/core.py:132-160 | reading folds `ReadLine` over the lines; the first error stops it and is raised, and the records and count of earlier lines stay |
| Core.ReadAllStops | src/core.py:141-160 | once a line fails, later lines change nothing |
| Core.ReadLineFiles | src/core.py:147-151 | a line that is classified and parses is filed under its kind, and a TRANSACTION is counted |
| Core.FiledExtends | src/core.py:151 | filing a record appends it to its kind's list, and a numbered TRANSACTION extends the numbering |
| Core.ReadLineExtends | src/core.py:145-154 | reading one line only appends records, and a TRANSACTION it files carries the next number |
| Core.ReadAllExtends | src/core.py:141-154 | reading only appends records, numbering the TRANSACTIONs on from the count it started at |
| Core.FreshReadNumbers | src/core.py:112-114 | read by a new instance, the TRANSACTIONs are numbered 1, 2, 3 and so on in file order, and the count is their number |
| Core.ReadLineOk | src/core.py:146-151 | a line that reads without error has the record length once stripped and files one record |
| Core.ReadAllLengths | src/core.py:145-154 | reading succeeds only when every stripped line has the record length |
| Core.ReadAllTotal | src/core.py:145-151 | a successful read files one record per line |
| Core.FixedWidthFile.AddTransaction | src/core.py:185-238 | the file gets the transaction numbered one past the largest counter, inserted before the last line, with that line rewritten as the footer; the new lines are written and the result is true; any error gives false and writes nothing |
| Core.FixedWidthFile.NewFile | src/core.py:196-230 | the scan's error, or the insertion of the transaction numbered one past the scan's result |
| Core.FixedWidthFile.FindMaxCounter | src/core.py:200-206 | the loop computes `MaxCounter` |
| Core.MaxCounterOk | src/core.py:200-206 | the scan succeeds if and only if every line starting with `02` has a whole number in columns 2 to 8 |
| Core.MaxCounterIsMax | src/core.py:200-206 | the scan's result bounds every counter in the file and, unless it is 0, is one of them |
| Core.MaxCounterStops | src/core.py:201-203 | once the scan raises, later lines do not change the error |
| Core.NewCounterFresh | src/core.py:200-211 | the new transaction's counter differs from every counter in the file |
| Core.CounterColumns | src/core.py:208-219 | the new line starts with `02` and carries its number in columns 2 to 8 |
| Core.CounterColumnText | src/core.py:203 | the counter columns read by the scan are those the parser strips |
| Core.FixedWidthFile.FormatNewRecord | src/core.py:208-219 | builds and formats the new transaction's line |
| Core.FixedWidthFile.InsertTransaction | src/core.py:208-230 | formats the new transaction, inserts it and rewrites the footer after it |
| Core.FixedWidthFile.InsertLine | src/core.py:218-230 | inserts a line before the last one and rewrites the line after it as the footer |
| Core.FixedWidthFile.RewriteFooter | src/core.py:224-229 | the footer is parsed, given the new count and the sum raised by the amount, and formatted; a control sum that is not a whole number raises |
| Core.FixedWidthFile.Commit | src/core.py:232-238 | new lines are written and give true; an error writes nothing and gives false |
| Core.InsertBeforeLast | src/core.py:218-221 | the list grows by one, the new line sits in front of the last line, and the earlier lines are kept |
| Core.InsertedShape | src/core.py:218-230 | the add keeps every line before the last, places the new line next, and rewrites only the footer |
| Core.NewRecordLineAgrees | src/core.py:208-219 | the new line is the one the document layer writes for the same counter, amount and currency |
| Core.NewFooterLine | src/core.py:224-229 | the footer written is the document layer's footer rewrite for the same count and sum |
| Core.FooterLineAgrees | src/core.py:224-229 | the footer rewrite agrees with the document layer's, error included |
| Core.InsertedAgrees | src/core.py:218-230 | the add replaces the line after the insertion by the document layer's footer rewrite |
| Core.FixedWidthFile.SetValue | src/core.py:240-286 | every line is edited in order and the count keeps the lines parsed; the lines are written only when a field changed; any error gives false and writes nothing |
| Core.FixedWidthFile.EditLines | src/core.py:257-277 | the loop computes `EditAll` over the lines until one raises |
| Core.FixedWidthFile.EditNext | src/core.py:257-277 | one more line extends the fold by one step |
| Core.FixedWidthFile.EditRecordLine | src/core.py:258-277 | one line is edited as `EditLine` states |
| Core.EditAllStops | src/core.py:253-286 | once a line raises, later lines change nothing |
| Core.EditLineKeeps | src/core.py:258-277 | a line that is not a record is kept; a HEADER or FOOTER is formatted back from its own text; an unedited TRANSACTION is formatted back from its parse, renumbered by the running count; a change happens only on a record-length TRANSACTION line with the given counter, for a field of the table |
| Core.PreservedRenumbers | src/core.py:274-277 | an unedited TRANSACTION is written back as a full record whose counter is its parse-order number |
| Core.EditAllKeeps | src/core.py:257-277 | the edit keeps the number of lines, and every line is preserved from the running count before it, except a record-length TRANSACTION line whose parse-order number is the target |
| Core.EditAllUpdated | src/core.py:262-273 | a write happens only with a non-empty counter and a field name of the TRANSACTION table, and only when some record-length TRANSACTION line's parse-order number equals the target; `Core.EditAllTargetUpdated` is the converse |
| Core.EditAllTargetUpdated | src/core.py:262-273 | when nothing raises, a record line that is the TRANSACTION whose parse-order number is the target, with a field of the TRANSACTION table, is written, so `set_value` returns true |
| Core.EditLineTargetUpdated | src/core.py:262-273 | a record line that is the TRANSACTION numbered as the target is changed when it raises nothing and the field is one of the table's |
| Core.EditLineUpdated | src/core.py:262-277 | a changed line is a TRANSACTION that parses, and the line written is its edited record formatted |
| Core.EditLineAmount | src/core.py:267-276 | an amount edit writes a 120-character line whose amount reads back as the value's cents and whose other fields are those parsed |
| Core.AmountEditReadsBack | src/core.py:268-276 | a fitting TRANSACTION with its amount set to twelve zero-filled digits of cents reads back with those cents and its other fields |
| Core.AmountEditFits | src/core.py:268-269 | a fitting TRANSACTION still fits with its amount set to twelve zero-filled digits |

## Left out

- File I/O and logging are left out. What `read_lines`, `readlines` or `read().splitlines()` returns is the class's `file` field. Each write appends its lines to the `written` field.
- Line terminators are left out. Lines are modelled without a real line break, so `readlines` and `splitlines` agree, and the `"\n"` that the newer iteration joins or appends is not represented. The two-character literal that the formatters append is modelled (`LineEnd`).
- Exceptions are collapsed. Each raise becomes an `Err` of one error constructor, and each broad `except` becomes `false`. A `KeyError` is not separate: a missing key reads as `""` (`Get`), the same as `dict.get`.
- `print` of the new line in the newer iteration's add is left out, because it is output only.
- The command-line front end `src/cli.py` is not part of this model. Neither is the file manager `src/fixed_width_file_handler.py`, which is only I/O.
- PyStr.Strip: whitespace is Python's ASCII whitespace. Unicode whitespace is not stripped.
- PyStr.PyInt: `int()` accepts surrounding whitespace and non-empty ASCII digits. Signs, underscores and non-ASCII digits are not modelled, so negative amounts and sums are out of scope.
- PyStr.DecimalCents: conversion of a plain decimal text to cents stands in for `Decimal(v) * 100` and `float(v) * 100`, keeping two fraction digits. Binary floating-point rounding (`0.29` giving 28 cents through `float`) is not modelled, nor are exponents, signs, underscores between digits (`"1_000"`), non-ASCII digits, `inf` or `nan`. Such a value is rejected where Python accepts it: the newer iteration's `set_value` then returns false without writing, and the first iteration's `set_value` raises after its write instead of updating the footer. Likewise a signed value, which `set_value` zero-fills behind its sign (`"+00000000005"`), is rejected where `Decimal` accepts it.
- FixedWidthFile.FixedWidthFile.AddTransaction takes the amount as integer cents rather than a `Decimal` text. So `int(Decimal(amount) * 100)` is the parameter itself.
- Core.FixedWidthFile.AddTransaction takes the amount as integer cents rather than a `Decimal`. Both operations take it this way.
- Core.FixedWidthFile.ParseLine stores the parsed amount as the digits of `str()` of the number, where the code stores the `int`. Every consumer (the formatter's `str()`) sees the same text.
- Core.FixedWidthFile.Read: the file-not-found branch is left out, because a missing file is I/O.
