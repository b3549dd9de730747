/**
 * The self-contained iteration of the record code (`FixedWidthFile` of `core.py`). It
 * has its own parser, which turns a TRANSACTION's amount into a number, rejects a
 * currency outside the allowed codes and renumbers the counter in parse order. Its
 * reader files the records by kind. `add_transaction` numbers the new transaction
 * after the highest counter in the file and rewrites the last line as the footer.
 * `set_value` rewrites every record line and changes one field of the transaction
 * that has the given parse-order counter.
 *
 * The file is its sequence of lines; every sequence the code writes is appended to
 * `written` and becomes the file's content.
 */
module Core {
  import opened Wrappers
  import opened PyStr
  import opened Layout
  import opened RecordParser
  import Document = FixedWidthFile

  /** `f"{n:06}"`: a transaction number zero-filled to six digits. */
  function CounterText(n: nat): string
  {
    ZFill(NatToString(n), 6)
  }

  /** The error one field's text raises in `_parse_line`: a TRANSACTION's amount must be
      a whole number and its currency one of the allowed codes. */
  function FieldError(k: Kind, f: Field, text: string): Option<Error>
  {
    if k == Transaction && f.name == "amount" && PyInt(text).None? then Some(InvalidInteger(text))
    else if k == Transaction && f.name == "currency" && text !in AllowedCurrencies then Some(InvalidCurrency(text))
    else None
  }

  /** The value `_parse_line` stores for one field's text: a TRANSACTION's amount as the
      decimal digits of its number (what `str()` of the parsed `int` gives), any other
      field as its text. */
  function FieldValue(k: Kind, f: Field, text: string): string
  {
    if k == Transaction && f.name == "amount" && PyInt(text).Some? then NatToString(PyInt(text).value) else text
  }

  /** The field loop of `_parse_line` over `fs`, in table order: the first field whose
      text is rejected raises; otherwise each field stores its value. */
  function CheckFields(line: string, k: Kind, fs: seq<Field>): Result<Record, Error>
  {
    if fs == [] then Ok(map[])
    else
      match CheckFields(line, k, fs[..|fs| - 1])
      case Err(e) => Err(e)
      case Ok(acc) =>
        var f := fs[|fs| - 1];
        var text := FieldText(line, f);
        match FieldError(k, f, text)
        case Some(e) => Err(e)
        case None => Ok(acc[f.name := FieldValue(k, f, text)])
  }

  /** `_parse_line(line, k)` with the running count at `counter`: the field loop, then a
      TRANSACTION's `counter` replaced by its parse-order number `counter + 1`. */
  function ParseRecord(line: string, k: Kind, counter: nat): Result<Record, Error>
  {
    match CheckFields(line, k, Fields(k))
    case Err(e) => Err(e)
    case Ok(d) => Ok(if k == Transaction then d["counter" := CounterText(counter + 1)] else d)
  }

  /** One more field of the table is one more step of the field loop. */
  lemma CheckFieldsStep(line: string, k: Kind, fs: seq<Field>, i: nat)
    requires i < |fs|
    ensures CheckFields(line, k, fs[..i + 1]) ==
      match CheckFields(line, k, fs[..i])
      case Err(e) => Err(e)
      case Ok(acc) =>
        match FieldError(k, fs[i], FieldText(line, fs[i]))
        case Some(e) => Err(e)
        case None => Ok(acc[fs[i].name := FieldValue(k, fs[i], FieldText(line, fs[i]))])
  {
    assert fs[..i + 1][..i] == fs[..i];
  }

  /** The field loop succeeds exactly when no field's text is rejected. */
  lemma {:induction false} CheckFieldsOk(line: string, k: Kind, fs: seq<Field>)
    ensures CheckFields(line, k, fs).Ok? <==> forall f :: f in fs ==> FieldError(k, f, FieldText(line, f)).None?
  {
    if fs != [] {
      var n := |fs| - 1;
      CheckFieldsOk(line, k, fs[..n]);
      InitAndLast(fs);
    }
  }

  /** The fields of a table are those of its first part and its last one. */
  lemma InitAndLast(fs: seq<Field>)
    requires fs != []
    ensures forall f :: f in fs <==> f in fs[..|fs| - 1] || f == fs[|fs| - 1]
  {
    assert fs == fs[..|fs| - 1] + [fs[|fs| - 1]];
  }

  /** A successful field loop has the table's names as its keys. */
  lemma {:induction false} CheckFieldsKeys(line: string, k: Kind, fs: seq<Field>)
    requires CheckFields(line, k, fs).Ok?
    ensures CheckFields(line, k, fs).value.Keys == Names(fs)
  {
    if fs != [] {
      CheckFieldsKeys(line, k, fs[..|fs| - 1]);
    }
  }

  /** A successful field loop over a table with distinct names stores, for every field,
      the value of its text. */
  lemma {:induction false} CheckFieldsValues(line: string, k: Kind, fs: seq<Field>)
    requires DistinctNames(fs) && CheckFields(line, k, fs).Ok?
    ensures forall f :: f in fs ==>
      f.name in CheckFields(line, k, fs).value &&
      CheckFields(line, k, fs).value[f.name] == FieldValue(k, f, FieldText(line, f))
  {
    if fs != [] {
      var n := |fs| - 1;
      DistinctInit(fs);
      CheckFieldsValues(line, k, fs[..n]);
      InitAndLast(fs);
    }
  }

  /** `_parse_line` succeeds exactly when no field's text is rejected. */
  lemma ParseRecordOk(line: string, k: Kind, counter: nat)
    ensures ParseRecord(line, k, counter).Ok? <==>
      forall f :: f in Fields(k) ==> FieldError(k, f, FieldText(line, f)).None?
  {
    CheckFieldsOk(line, k, Fields(k));
  }

  /** A record `_parse_line` accepts is the field loop's record, renumbered when it is
      a TRANSACTION. */
  lemma ParseRecordRenumbered(line: string, k: Kind, counter: nat)
    requires ParseRecord(line, k, counter).Ok?
    ensures CheckFields(line, k, Fields(k)).Ok?
    ensures var d := CheckFields(line, k, Fields(k)).value;
      ParseRecord(line, k, counter).value == if k == Transaction then d["counter" := CounterText(counter + 1)] else d
  {
  }

  /** A record `_parse_line` accepts has the table's field names as its keys. */
  lemma ParseRecordKeys(line: string, k: Kind, counter: nat)
    requires ParseRecord(line, k, counter).Ok?
    ensures ParseRecord(line, k, counter).value.Keys == FieldNames(k)
  {
    assert "counter" in FieldNames(Transaction) by {
      assert Field("counter", 2, 8) in Fields(Transaction);
    }
    ParseRecordRenumbered(line, k, counter);
    CheckFieldsKeys(line, k, Fields(k));
  }

  /** A TRANSACTION `_parse_line` accepts carries its parse-order number as its counter,
      whatever the line's counter column holds. */
  lemma ParseRecordCounter(line: string, counter: nat)
    requires ParseRecord(line, Transaction, counter).Ok?
    ensures "counter" in ParseRecord(line, Transaction, counter).value
    ensures ParseRecord(line, Transaction, counter).value["counter"] == CounterText(counter + 1)
  {
    ParseRecordRenumbered(line, Transaction, counter);
  }

  /** In a record `_parse_line` accepts, every field but a TRANSACTION's counter holds
      the value of its text. */
  lemma ParseRecordValues(line: string, k: Kind, counter: nat)
    requires ParseRecord(line, k, counter).Ok?
    ensures forall f :: f in Fields(k) && !(k == Transaction && f.name == "counter") ==>
      f.name in ParseRecord(line, k, counter).value &&
      ParseRecord(line, k, counter).value[f.name] == FieldValue(k, f, FieldText(line, f))
  {
    ParseRecordRenumbered(line, k, counter);
    var d := CheckFields(line, k, Fields(k)).value;
    var r := ParseRecord(line, k, counter).value;
    var renumber := CounterText(counter + 1);
    assert r == if k == Transaction then d["counter" := renumber] else d;
    FieldsLayout(k);
    CheckFieldsValues(line, k, Fields(k));
    forall f | f in Fields(k) && !(k == Transaction && f.name == "counter")
      ensures f.name in r && r[f.name] == FieldValue(k, f, FieldText(line, f))
    {
      assert f.name in d && d[f.name] == FieldValue(k, f, FieldText(line, f));
      RenumberKeeps(d, r, k, f.name, renumber);
    }
  }

  /** Renumbering a TRANSACTION changes no field but its counter. */
  lemma RenumberKeeps(d: Record, r: Record, k: Kind, name: string, renumber: string)
    requires r == if k == Transaction then d["counter" := renumber] else d
    requires name in d && !(k == Transaction && name == "counter")
    ensures name in r && r[name] == d[name]
  {
  }

  /** Once a field has been rejected the field loop has raised: later fields change
      nothing. */
  lemma {:induction false} CheckFieldsStops(line: string, k: Kind, fs: seq<Field>, i: nat)
    requires i <= |fs| && CheckFields(line, k, fs[..i]).Err?
    ensures CheckFields(line, k, fs) == CheckFields(line, k, fs[..i])
    decreases |fs| - i
  {
    if i < |fs| {
      CheckFieldsStep(line, k, fs, i);
      CheckFieldsStops(line, k, fs, i + 1);
    } else {
      assert fs[..i] == fs;
    }
  }

  /** The first rejected field decides the error the field loop raises. */
  lemma CheckFieldsFirstError(line: string, k: Kind, fs: seq<Field>, i: nat)
    requires i < |fs| && FieldError(k, fs[i], FieldText(line, fs[i])).Some?
    requires forall j :: 0 <= j < i ==> FieldError(k, fs[j], FieldText(line, fs[j])).None?
    ensures CheckFields(line, k, fs) == Err(FieldError(k, fs[i], FieldText(line, fs[i])).value)
  {
    forall f | f in fs[..i] ensures FieldError(k, f, FieldText(line, f)).None? {
      var j :| 0 <= j < i && fs[..i][j] == f;
    }
    CheckFieldsOk(line, k, fs[..i]);
    CheckFieldsStep(line, k, fs, i);
    CheckFieldsStops(line, k, fs, i + 1);
  }

  /** The amount column of a TRANSACTION line. */
  const AmountField: Field := Field("amount", 8, 20)
  /** The currency column of a TRANSACTION line. */
  const CurrencyField: Field := Field("currency", 20, 23)

  /** A TRANSACTION line is checked in table order: an amount that is not a whole number
      raises before the currency is looked at, and a currency outside the allowed codes
      raises next; otherwise the line parses. */
  lemma TransactionParseErrors(line: string, counter: nat)
    ensures var a := FieldText(line, AmountField);
      PyInt(a).None? ==> ParseRecord(line, Transaction, counter) == Err(InvalidInteger(a))
    ensures var a := FieldText(line, AmountField);
      var c := FieldText(line, CurrencyField);
      PyInt(a).Some? && c !in AllowedCurrencies ==> ParseRecord(line, Transaction, counter) == Err(InvalidCurrency(c))
    ensures var a := FieldText(line, AmountField);
      var c := FieldText(line, CurrencyField);
      PyInt(a).Some? && c in AllowedCurrencies ==> ParseRecord(line, Transaction, counter).Ok?
  {
    if PyInt(FieldText(line, AmountField)).None? {
      AmountRaises(line, counter);
    } else if FieldText(line, CurrencyField) !in AllowedCurrencies {
      CurrencyRaises(line, counter);
    } else {
      TransactionAccepted(line, counter);
    }
  }

  /** The first two fields of a TRANSACTION are never rejected. */
  lemma LeadingFieldsAccepted(line: string)
    ensures forall j :: 0 <= j < 2 ==>
      FieldError(Transaction, Fields(Transaction)[j], FieldText(line, Fields(Transaction)[j])).None?
  {
  }

  /** An amount that is not a whole number raises. */
  lemma AmountRaises(line: string, counter: nat)
    requires PyInt(FieldText(line, AmountField)).None?
    ensures ParseRecord(line, Transaction, counter) == Err(InvalidInteger(FieldText(line, AmountField)))
  {
    var fs := Fields(Transaction);
    assert fs[2] == AmountField;
    LeadingFieldsAccepted(line);
    CheckFieldsFirstError(line, Transaction, fs, 2);
  }

  /** A whole-number amount followed by a currency outside the allowed codes raises. */
  lemma CurrencyRaises(line: string, counter: nat)
    requires PyInt(FieldText(line, AmountField)).Some?
    requires FieldText(line, CurrencyField) !in AllowedCurrencies
    ensures ParseRecord(line, Transaction, counter) == Err(InvalidCurrency(FieldText(line, CurrencyField)))
  {
    var fs := Fields(Transaction);
    assert fs[2] == AmountField && fs[3] == CurrencyField;
    LeadingFieldsAccepted(line);
    assert FieldError(Transaction, fs[2], FieldText(line, fs[2])).None?;
    CheckFieldsFirstError(line, Transaction, fs, 3);
  }

  /** A HEADER or FOOTER line always parses: only a TRANSACTION's fields are checked. */
  lemma OtherKindsParse(line: string, k: Kind, counter: nat)
    requires k != Transaction
    ensures ParseRecord(line, k, counter).Ok?
  {
    ParseRecordOk(line, k, counter);
  }

  /** A HEADER or FOOTER line always parses, and every field holds what the record
      parser of the other iteration reads from it, so both format it alike. */
  lemma OtherKindsAgree(line: string, k: Kind, counter: nat)
    requires k != Transaction
    ensures ParseRecord(line, k, counter).Ok?
    ensures forall f :: f in Fields(k) ==> Get(ParseRecord(line, k, counter).value, f.name) == Get(Parse(line, k), f.name)
    ensures Format(ParseRecord(line, k, counter).value, k) == Format(Parse(line, k), k)
  {
    ParseRecordOk(line, k, counter);
    ParseRecordValues(line, k, counter);
    ParseLineFields(line, k);
    FormatIgnoresOtherKeys(ParseRecord(line, k, counter).value, Parse(line, k), k);
  }

  /** `_validate_data` never rejects what `_parse_line` accepted: the currency it
      re-checks is the one the parse already checked. */
  lemma ParsedRecordValid(line: string, k: Kind, counter: nat)
    requires ParseRecord(line, k, counter).Ok?
    ensures ValidateData(ParseRecord(line, k, counter).value, k).Ok?
  {
    if k == Transaction {
      ParseRecordCurrency(line, counter);
    }
  }

  /** A TRANSACTION `_parse_line` accepts holds its currency column's text, and that is
      one of the allowed codes. */
  lemma ParseRecordCurrency(line: string, counter: nat)
    requires ParseRecord(line, Transaction, counter).Ok?
    ensures Get(ParseRecord(line, Transaction, counter).value, "currency") == FieldText(line, CurrencyField)
    ensures FieldText(line, CurrencyField) in AllowedCurrencies
  {
    assert CurrencyField in Fields(Transaction);
    ParseRecordOk(line, Transaction, counter);
    ParseRecordValues(line, Transaction, counter);
  }

  /** A TRANSACTION line whose amount is a whole number and whose currency is allowed
      parses. */
  lemma TransactionAccepted(line: string, counter: nat)
    requires PyInt(FieldText(line, AmountField)).Some? && FieldText(line, CurrencyField) in AllowedCurrencies
    ensures ParseRecord(line, Transaction, counter).Ok?
  {
    ParseRecordOk(line, Transaction, counter);
  }

  /** The records filed under `k` (`data.get(k, [])`). */
  function Records(data: map<Kind, seq<Record>>, k: Kind): seq<Record>
  {
    if k in data then data[k] else []
  }

  /** `data.setdefault(k, []).append(d)`. */
  function Filed(data: map<Kind, seq<Record>>, k: Kind, d: Record): map<Kind, seq<Record>>
  {
    data[k := Records(data, k) + [d]]
  }

  /** What `read` has done after some lines: the records filed by kind, the running
      count, and the error that stopped it, if one did. */
  datatype Reader = Reader(data: map<Kind, seq<Record>>, counter: nat, error: Option<Error>)

  /** One line of `read`: strip it, require the record length, classify it, parse it
      (which counts a TRANSACTION), validate it and file it under its kind. */
  function ReadLine(s: Reader, line: string): Reader
  {
    if s.error.Some? then s
    else
      var clean := Strip(line);
      if |clean| != RecordLength then Reader(s.data, s.counter, Some(InvalidLineLength(|clean|)))
      else
        match GetRecordType(clean)
        case Err(e) => Reader(s.data, s.counter, Some(e))
        case Ok(k) =>
          match ParseRecord(clean, k, s.counter)
          case Err(e) => Reader(s.data, s.counter, Some(e))
          case Ok(d) =>
            var counter := if k == Transaction then s.counter + 1 else s.counter;
            match ValidateData(d, k)
            case Err(e) => Reader(s.data, counter, Some(e))
            case Ok(_) => Reader(Filed(s.data, k, d), counter, None)
  }

  /** `read`'s loop over `content`, in order; the first failing line stops it. */
  function ReadAll(s: Reader, content: seq<string>): Reader
  {
    if content == [] then s else ReadLine(ReadAll(s, content[..|content| - 1]), content[|content| - 1])
  }

  class FixedWidthFile {
    /** The file's lines. */
    var file: seq<string>
    /** Every line sequence written to the file, oldest first. */
    var written: seq<seq<string>>
    /** `self.data`: the records `read` has filed, by kind. */
    var data: map<Kind, seq<Record>>
    /** `self.transaction_counter`: the number of TRANSACTION lines parsed so far. */
    var transactionCounter: nat

    /** `__init__`: no records and a zero count. */
    constructor(content: seq<string>)
      ensures file == content && written == [] && data == map[] && transactionCounter == 0
    {
      file := content;
      written := [];
      data := map[];
      transactionCounter := 0;
    }

    /** `_parse_line`: the field loop, then a TRANSACTION is counted and its counter
        replaced by the new count. */
    method ParseLine(line: string, k: Kind) returns (r: Result<Record, Error>)
      modifies this
      ensures r == ParseRecord(line, k, old(transactionCounter))
      ensures transactionCounter == if r.Ok? && k == Transaction then old(transactionCounter) + 1 else old(transactionCounter)
      ensures file == old(file) && written == old(written) && data == old(data)
    {
      var fields := CheckFieldLoop(line, k);
      if fields.Err? {
        return Err(fields.error);
      }
      var d := fields.value;
      if k == Transaction {
        transactionCounter := transactionCounter + 1;
        d := d["counter" := CounterText(transactionCounter)];
      }
      return Ok(d);
    }

    /** `read`: every line of the file in order; the first failing line raises, and
        what earlier lines filed and counted stays. */
    method Read() returns (r: Result<(), Error>)
      modifies this
      ensures var s := ReadAll(Reader(old(data), old(transactionCounter), None), old(file));
        data == s.data && transactionCounter == s.counter &&
        r == if s.error.None? then Ok(()) else Err(s.error.value)
      ensures file == old(file) && written == old(written)
    {
      ghost var s0 := Reader(data, transactionCounter, None);
      var content := file;
      for i := 0 to |content|
        invariant ReadAll(s0, content[..i]).error.None?
        invariant ReadAll(s0, content[..i]).data == data
        invariant ReadAll(s0, content[..i]).counter == transactionCounter
        invariant file == content && written == old(written)
      {
        ReadAllStep(s0, content, i);
        var e := ReadRecordLine(content[i]);
        if e.Some? {
          ReadAllStops(s0, content, i + 1);
          return Err(e.value);
        }
      }
      assert content[..|content|] == content;
      return Ok(());
    }

    /** The body of `read`'s loop for one line. */
    method ReadRecordLine(line: string) returns (e: Option<Error>)
      modifies this
      ensures var s := ReadLine(Reader(old(data), old(transactionCounter), None), line);
        data == s.data && transactionCounter == s.counter && e == s.error
      ensures file == old(file) && written == old(written)
    {
      var cleanLine := Strip(line);
      if |cleanLine| != RecordLength {
        return Some(InvalidLineLength(|cleanLine|));
      }
      var recordType := GetRecordType(cleanLine);
      if recordType.Err? {
        return Some(recordType.error);
      }
      var k := recordType.value;
      var parsed := ParseLine(cleanLine, k);
      if parsed.Err? {
        return Some(parsed.error);
      }
      var valid := ValidateData(parsed.value, k);
      if valid.Err? {
        return Some(valid.error);
      }
      data := Filed(data, k, parsed.value);
      return None;
    }

    /** The loop of `_parse_line` over the field table: each field's columns are
        stripped; a TRANSACTION's amount must be a whole number and its currency an
        allowed code. */
    static method CheckFieldLoop(line: string, k: Kind) returns (r: Result<Record, Error>)
      ensures r == CheckFields(line, k, Fields(k))
    {
      var fs := Fields(k);
      var d: Record := map[];
      for i := 0 to |fs|
        invariant CheckFields(line, k, fs[..i]) == Ok(d)
      {
        var f := fs[i];
        var value := Strip(Slice(line, f.start, f.end));
        CheckFieldsStep(line, k, fs, i);
        var checked := CheckValue(k, f, value);
        if checked.Err? {
          CheckFieldsStops(line, k, fs, i + 1);
          return Err(checked.error);
        }
        d := d[f.name := checked.value];
      }
      assert fs[..|fs|] == fs;
      return Ok(d);
    }

    /** The checks of `_parse_line` on one field's stripped text: a TRANSACTION's amount
        must be a whole number and is stored as its digits, and its currency must be an
        allowed code; every other field is stored as it is. */
    static method CheckValue(k: Kind, f: Field, value: string) returns (r: Result<string, Error>)
      ensures r == match FieldError(k, f, value)
        case Some(e) => Err(e)
        case None => Ok(FieldValue(k, f, value))
    {
      if k == Transaction && f.name == "amount" {
        var amount := PyInt(value);
        if amount.None? {
          return Err(InvalidInteger(value));
        }
        return Ok(NatToString(amount.value));
      } else if k == Transaction && f.name == "currency" {
        if value !in AllowedCurrencies {
          return Err(InvalidCurrency(value));
        }
        return Ok(value);
      }
      return Ok(value);
    }

    /** `_format_line`: the fields padded and concatenated in table order, followed by
        the two characters `\n`. */
    static method FormatRecord(d: Record, k: Kind) returns (line: string)
      ensures line == Format(d, k) + LineEnd
    {
      line := FormatLine(d, k);
      line := line + LineEnd;
    }

    /** `add_transaction`: number the new transaction one past the largest counter in
        the file, insert it in front of the last line, rewrite the footer, write. Any
        error is logged and gives `false` with nothing written. */
    method AddTransaction(cents: nat, currency: string) returns (ok: bool)
      modifies this
      ensures var r := AddedFile(MaxCounter(old(file)), old(file), old(transactionCounter), cents, currency);
        && ok == r.Ok?
        && (r.Ok? ==> file == r.value && written == old(written) + [r.value])
        && (r.Err? ==> file == old(file) && written == old(written))
      ensures data == old(data) && transactionCounter == old(transactionCounter)
    {
      var found := FindMaxCounter(file);
      var r := NewFile(found, file, cents, currency);
      ok := Commit(r);
    }

    /** What `add_transaction` computes before writing: the scan for the largest
        counter, then the insertion, or the scan's error. */
    method NewFile(scan: Result<nat, Error>, lines: seq<string>, cents: nat, currency: string) returns (r: Result<seq<string>, Error>)
      modifies this
      ensures r == if scan.Err? then Err(scan.error)
          else Inserted(lines, NewRecordLine(scan.value + 1, cents, currency), scan.value + 1, old(transactionCounter), cents)
      ensures file == old(file) && written == old(written) && data == old(data)
      ensures transactionCounter == old(transactionCounter)
    {
      if scan.Err? {
        return Err(scan.error);
      }
      r := InsertTransaction(lines, scan.value + 1, cents, currency);
    }

    /** The counter loop of `add_transaction`: the largest `int(line[2:8])` over the
        lines starting with `"02"`. */
    static method FindMaxCounter(lines: seq<string>) returns (r: Result<nat, Error>)
      ensures r == MaxCounter(lines)
    {
      var maxCounter := 0;
      for i := 0 to |lines|
        invariant MaxCounter(lines[..i]) == Ok(maxCounter)
      {
        MaxCounterStep(lines, i);
        var line := lines[i];
        if StartsWith(line, "02") {
          var currentCounter := PyInt(Slice(line, 2, 8));
          if currentCounter.None? {
            MaxCounterStops(lines, i + 1);
            return Err(InvalidInteger(Slice(line, 2, 8)));
          }
          if currentCounter.value > maxCounter {
            maxCounter := currentCounter.value;
          }
        }
      }
      assert lines[..|lines|] == lines;
      return Ok(maxCounter);
    }

    /** The middle of `add_transaction`: format the transaction numbered `n`, insert it
        in front of the last line, parse the line after it as the footer, set its count
        to `n`, add `cents` to its control sum and format it back in place. */
    method InsertTransaction(lines: seq<string>, n: nat, cents: nat, currency: string) returns (r: Result<seq<string>, Error>)
      modifies this
      ensures r == Inserted(lines, NewRecordLine(n, cents, currency), n, old(transactionCounter), cents)
      ensures file == old(file) && written == old(written) && data == old(data)
      ensures transactionCounter == old(transactionCounter)
    {
      var t := FormatNewRecord(n, cents, currency);
      r := InsertLine(lines, t, n, cents);
    }

    /** `t` inserted in front of the last line, and the footer after it rewritten for
        the transaction numbered `n` of `cents`. */
    method InsertLine(lines: seq<string>, t: string, n: nat, cents: nat) returns (r: Result<seq<string>, Error>)
      modifies this
      ensures r == Inserted(lines, t, n, old(transactionCounter), cents)
      ensures file == old(file) && written == old(written) && data == old(data)
      ensures transactionCounter == old(transactionCounter)
    {
      var inserted := InsertBeforeLast(lines, t);
      var footerIndex := |inserted| - 1;
      var updated := RewriteFooter(inserted[footerIndex], n, cents);
      if updated.Err? {
        return Err(updated.error);
      }
      return Ok(inserted[footerIndex := updated.value]);
    }

    /** The transaction line of `add_transaction`: the record numbered `n` formatted. */
    static method FormatNewRecord(n: nat, cents: nat, currency: string) returns (t: string)
      ensures t == NewRecordLine(n, cents, currency)
    {
      var newRecord := NewRecord(n, cents, currency);
      t := FormatRecord(newRecord, Transaction);
    }

    /** The footer step of `add_transaction`: parse `line` as the footer, set its count
        to `n`, add `cents` to its control sum and format it. */
    method RewriteFooter(line: string, n: nat, cents: nat) returns (r: Result<string, Error>)
      modifies this
      ensures r == FooterLine(line, n, old(transactionCounter), cents)
      ensures file == old(file) && written == old(written) && data == old(data)
      ensures transactionCounter == old(transactionCounter)
    {
      OtherKindsParse(line, Footer, transactionCounter);
      var parsed := ParseLine(line, Footer);
      var footerData := parsed.value;
      var currentControlSum := PyInt(Get(footerData, "control_sum"));
      footerData := footerData["total_count" := CounterText(n)];
      if currentControlSum.None? {
        return Err(InvalidInteger(Get(parsed.value, "control_sum")));
      }
      footerData := footerData["control_sum" := ZFill(NatToString(currentControlSum.value + cents), 12)];
      var updatedFooterLine := FormatRecord(footerData, Footer);
      return Ok(updatedFooterLine);
    }

    /** The end of `add_transaction`: new lines are written and give `true`; an error
        gives `false` and writes nothing. */
    method Commit(r: Result<seq<string>, Error>) returns (ok: bool)
      modifies this
      ensures ok == r.Ok?
      ensures r.Ok? ==> file == r.value && written == old(written) + [r.value]
      ensures r.Err? ==> file == old(file) && written == old(written)
      ensures data == old(data) && transactionCounter == old(transactionCounter)
    {
      if r.Err? {
        return false;
      }
      file := r.value;
      written := written + [r.value];
      return true;
    }

    /** `set_value`: re-format every line whose stripped text has the record length,
        change `fieldName` of the transaction whose parse-order counter is `target`,
        and write the lines back only when a field was changed. Any error is logged
        and gives `false` with nothing written; the running count keeps the lines
        parsed before it. */
    method SetValue(fieldName: string, value: string, target: Option<string>) returns (ok: bool)
      modifies this
      ensures var e := EditAll(old(file), old(transactionCounter), fieldName, value, target);
        && transactionCounter == e.counter
        && ok == (e.error.None? && e.updated)
        && (ok ==> file == e.out && written == old(written) + [e.out])
        && (!ok ==> file == old(file) && written == old(written))
      ensures data == old(data)
    {
      var lines, updated, error := EditLines(file, fieldName, value, target);
      if error.Some? || !updated {
        return false;
      }
      file := lines;
      written := written + [lines];
      return true;
    }

    /** The loop of `set_value`: every line of `content` is edited in place, in order,
        until one raises. */
    method EditLines(content: seq<string>, fieldName: string, value: string, target: Option<string>)
      returns (lines: seq<string>, updated: bool, error: Option<Error>)
      modifies this
      ensures var e := EditAll(content, old(transactionCounter), fieldName, value, target);
        && transactionCounter == e.counter && error == e.error
        && (error.None? ==> lines == e.out && updated == e.updated)
      ensures file == old(file) && written == old(written) && data == old(data)
    {
      ghost var c0 := transactionCounter;
      ghost var e := Edit([], c0, false, None);
      lines := content;
      updated := false;
      for i := 0 to |lines|
        invariant file == old(file) && written == old(written) && data == old(data)
        invariant e == EditAll(content[..i], c0, fieldName, value, target)
        invariant e.error.None? && e.counter == transactionCounter && e.updated == updated
        invariant |e.out| == i && lines == e.out + content[i..]
      {
        var r := EditNext(content, c0, fieldName, value, target, i);
        e := Edit(e.out + [r.text], r.counter, e.updated || r.updated, r.error);
        if r.error.Some? {
          EditAllStops(content, c0, fieldName, value, target, i + 1);
          return lines, updated, r.error;
        }
        ReplaceNext(e.out, content, i);
        lines := lines[i := r.text];
        updated := updated || r.updated;
      }
      assert content[..|content|] == content;
      return lines, updated, None;
    }

    /** Edits the line after the first `i`, extending the fold over them by one step. */
    method EditNext(content: seq<string>, ghost c0: nat, fieldName: string, value: string, target: Option<string>, i: nat)
      returns (r: LineEdit)
      requires i < |content|
      requires EditAll(content[..i], c0, fieldName, value, target).error.None?
      requires EditAll(content[..i], c0, fieldName, value, target).counter == transactionCounter
      modifies this
      ensures var p := EditAll(content[..i], c0, fieldName, value, target);
        EditAll(content[..i + 1], c0, fieldName, value, target) == Edit(p.out + [r.text], r.counter, p.updated || r.updated, r.error)
      ensures transactionCounter == r.counter
      ensures file == old(file) && written == old(written) && data == old(data)
    {
      EditAllStep(content, c0, fieldName, value, target, i);
      r := EditRecordLine(content[i], fieldName, value, target);
    }

    /** The body of `set_value`'s loop for one line. */
    method EditRecordLine(line: string, fieldName: string, value: string, target: Option<string>) returns (r: LineEdit)
      modifies this
      ensures r == EditLine(line, old(transactionCounter), fieldName, value, target)
      ensures transactionCounter == r.counter
      ensures file == old(file) && written == old(written) && data == old(data)
    {
      var cleanLine := Strip(line);
      if |cleanLine| != RecordLength {
        return LineEdit(line, transactionCounter, false, None);
      }
      var recordType := GetRecordType(cleanLine);
      if recordType.Err? {
        return LineEdit(line, transactionCounter, false, Some(recordType.error));
      }
      var k := recordType.value;
      var parsed := ParseLine(cleanLine, k);
      if parsed.Err? {
        return LineEdit(line, transactionCounter, false, Some(parsed.error));
      }
      var d := parsed.value;
      var updated := false;
      if Selected(target, k, d) {
        if fieldName == "amount" {
          var cents := DecimalCents(value);
          if cents.None? {
            return LineEdit(line, transactionCounter, false, Some(InvalidDecimal(value)));
          }
          d := d["amount" := ZFill(NatToString(cents.value), 12)];
          updated := true;
        } else if fieldName in d {
          d := d[fieldName := value];
          updated := true;
        }
      }
      var formatted := FormatRecord(d, k);
      return LineEdit(formatted, transactionCounter, updated, None);
    }
  }

  /** One more line is one more step of `read`. */
  lemma ReadAllStep(s: Reader, content: seq<string>, i: nat)
    requires i < |content|
    ensures ReadAll(s, content[..i + 1]) == ReadLine(ReadAll(s, content[..i]), content[i])
  {
    assert content[..i + 1][..i] == content[..i];
  }

  /** Once a line has failed, `read` has stopped: later lines change nothing. */
  lemma {:induction false} ReadAllStops(s: Reader, content: seq<string>, i: nat)
    requires i <= |content| && ReadAll(s, content[..i]).error.Some?
    ensures ReadAll(s, content) == ReadAll(s, content[..i])
    decreases |content| - i
  {
    if i < |content| {
      ReadAllStep(s, content, i);
      ReadAllStops(s, content, i + 1);
    } else {
      assert content[..i] == content;
    }
  }

  /** `r` is what reading more lines after `s` can give: every kind's records extend
      those of `s`, and the TRANSACTION records added carry the numbers that follow the
      count of `s`, one per record, in order. */
  predicate Extends(s: Reader, r: Reader)
  {
    && s.counter <= r.counter
    && (forall k :: Records(s.data, k) <= Records(r.data, k))
    && r.counter - s.counter == |Records(r.data, Transaction)| - |Records(s.data, Transaction)|
    && forall j :: |Records(s.data, Transaction)| <= j < |Records(r.data, Transaction)| ==>
      Get(Records(r.data, Transaction)[j], "counter") == CounterText(s.counter + (j - |Records(s.data, Transaction)|) + 1)
  }

  /** A state with the same records and count extends `s`. */
  lemma ExtendsSelf(s: Reader, r: Reader)
    requires r.data == s.data && r.counter == s.counter
    ensures Extends(s, r)
  {
  }

  /** Reading in two stretches extends the starting state. */
  lemma ExtendsTrans(a: Reader, b: Reader, c: Reader)
    requires Extends(a, b) && Extends(b, c)
    ensures Extends(a, c)
  {
    var ta, tb, tc := Records(a.data, Transaction), Records(b.data, Transaction), Records(c.data, Transaction);
    forall j | |ta| <= j < |tc|
      ensures Get(tc[j], "counter") == CounterText(a.counter + (j - |ta|) + 1)
    {
      if j < |tb| {
        assert tc[j] == tb[j];
      }
    }
  }

  /** Filing a record, counted and numbered when it is a TRANSACTION, extends the
      state. */
  lemma FiledExtends(s: Reader, k: Kind, d: Record)
    requires k == Transaction ==> Get(d, "counter") == CounterText(s.counter + 1)
    ensures Extends(s, Reader(Filed(s.data, k, d), if k == Transaction then s.counter + 1 else s.counter, None))
  {
    var r := Reader(Filed(s.data, k, d), if k == Transaction then s.counter + 1 else s.counter, None);
    forall k' ensures Records(s.data, k') <= Records(r.data, k') {
    }
  }

  /** One line of `read` extends the state: a TRANSACTION it files carries the next
      number, and a line that fails leaves the records and the count as they were. */
  lemma ReadLineExtends(s: Reader, line: string)
    requires s.error.None?
    ensures Extends(s, ReadLine(s, line))
  {
    var clean := Strip(line);
    if |clean| == RecordLength && GetRecordType(clean).Ok? && ParseRecord(clean, GetRecordType(clean).value, s.counter).Ok? {
      var k := GetRecordType(clean).value;
      ReadLineFiles(s, line);
      if k == Transaction {
        ParseRecordCounter(clean, s.counter);
      }
      FiledExtends(s, k, ParseRecord(clean, k, s.counter).value);
    } else {
      ExtendsSelf(s, ReadLine(s, line));
    }
  }

  /** A record-length line that is classified and parses is filed under its kind. */
  lemma ReadLineFiles(s: Reader, line: string)
    requires s.error.None? && |Strip(line)| == RecordLength && GetRecordType(Strip(line)).Ok?
    requires ParseRecord(Strip(line), GetRecordType(Strip(line)).value, s.counter).Ok?
    ensures var k := GetRecordType(Strip(line)).value;
      ReadLine(s, line) ==
        Reader(Filed(s.data, k, ParseRecord(Strip(line), k, s.counter).value),
               if k == Transaction then s.counter + 1 else s.counter, None)
  {
    ParsedRecordValid(Strip(line), GetRecordType(Strip(line)).value, s.counter);
  }

  /** `read` extends the state it starts from: records are only appended, and the
      TRANSACTION records it files are numbered on from the count it started at. */
  lemma {:induction false} ReadAllExtends(s: Reader, content: seq<string>)
    requires s.error.None?
    ensures Extends(s, ReadAll(s, content))
  {
    if content == [] {
      ExtendsSelf(s, s);
    } else {
      var p := ReadAll(s, content[..|content| - 1]);
      ReadAllExtends(s, content[..|content| - 1]);
      if p.error.None? {
        ReadLineExtends(p, content[|content| - 1]);
        ExtendsTrans(s, p, ReadAll(s, content));
      }
    }
  }

  /** Read by a fresh instance, the TRANSACTION records are numbered 1, 2, 3, … in file
      order whatever their counter columns hold, and the count is their number. */
  lemma FreshReadNumbers(content: seq<string>)
    ensures var r := ReadAll(Reader(map[], 0, None), content);
      && r.counter == |Records(r.data, Transaction)|
      && forall j :: 0 <= j < |Records(r.data, Transaction)| ==>
        Get(Records(r.data, Transaction)[j], "counter") == CounterText(j + 1)
  {
    ReadAllExtends(Reader(map[], 0, None), content);
  }

  /** The number of records filed under all kinds. */
  function Total(data: map<Kind, seq<Record>>): nat
  {
    |Records(data, Header)| + |Records(data, Transaction)| + |Records(data, Footer)|
  }

  /** A line `read` gets through is a record-length line once stripped, and it files
      exactly one record. */
  lemma ReadLineOk(s: Reader, line: string)
    requires s.error.None? && ReadLine(s, line).error.None?
    ensures |Strip(line)| == RecordLength
    ensures Total(ReadLine(s, line).data) == Total(s.data) + 1
  {
    var k := GetRecordType(Strip(line)).value;
    ReadLineFiles(s, line);
    FiledTotal(s.data, k, ParseRecord(Strip(line), k, s.counter).value);
  }

  /** Filing one record adds one to the total. */
  lemma FiledTotal(data: map<Kind, seq<Record>>, k: Kind, d: Record)
    ensures Total(Filed(data, k, d)) == Total(data) + 1
  {
  }

  /** `read` succeeds only when every line is a record-length line once stripped. */
  lemma {:induction false} ReadAllLengths(s: Reader, content: seq<string>)
    requires s.error.None? && ReadAll(s, content).error.None?
    ensures forall i :: 0 <= i < |content| ==> |Strip(content[i])| == RecordLength
  {
    if content != [] {
      var n := |content| - 1;
      ReadAllPrefixOk(s, content);
      ReadAllLengths(s, content[..n]);
      ReadLineOk(ReadAll(s, content[..n]), content[n]);
      forall i | 0 <= i < |content| ensures |Strip(content[i])| == RecordLength {
        if i < n {
          assert content[..n][i] == content[i];
        } else {
          assert i == n;
        }
      }
    }
  }

  /** When `read` succeeds it files one record per line. */
  lemma {:induction false} ReadAllTotal(s: Reader, content: seq<string>)
    requires s.error.None? && ReadAll(s, content).error.None?
    ensures Total(ReadAll(s, content).data) == Total(s.data) + |content|
  {
    if content != [] {
      var n := |content| - 1;
      ReadAllPrefixOk(s, content);
      ReadAllTotal(s, content[..n]);
      ReadLineOk(ReadAll(s, content[..n]), content[n]);
    }
  }

  /** When `read` succeeds on some lines, it succeeds on all but the last and then on
      the last one. */
  lemma ReadAllPrefixOk(s: Reader, content: seq<string>)
    requires content != [] && ReadAll(s, content).error.None?
    ensures ReadAll(s, content[..|content| - 1]).error.None?
    ensures ReadLine(ReadAll(s, content[..|content| - 1]), content[|content| - 1]).error.None?
  {
    var p := ReadAll(s, content[..|content| - 1]);
    ReadAllLast(s, content);
    ReadLineAfterError(p, content[|content| - 1]);
  }

  /** The last line is the last step of `read`. */
  lemma ReadAllLast(s: Reader, content: seq<string>)
    requires content != []
    ensures ReadAll(s, content) == ReadLine(ReadAll(s, content[..|content| - 1]), content[|content| - 1])
  {
  }

  /** A line read after an error keeps the error. */
  lemma ReadLineAfterError(p: Reader, line: string)
    ensures ReadLine(p, line).error.None? ==> p.error.None?
  {
  }

  /** The first `n` lines hold the same lines at the same indices. */
  lemma PrefixIndices(content: seq<string>, n: nat)
    requires n <= |content|
    ensures forall i :: 0 <= i < n ==> content[..n][i] == content[i]
  {
  }

  /** The highest counter `add_transaction` finds: `int(line[2:8])` over the lines that
      start with `"02"`, or 0; a counter column that is not a whole number raises. */
  function MaxCounter(lines: seq<string>): Result<nat, Error>
  {
    if lines == [] then Ok(0)
    else
      match MaxCounter(lines[..|lines| - 1])
      case Err(e) => Err(e)
      case Ok(m) =>
        var line := lines[|lines| - 1];
        if !StartsWith(line, "02") then Ok(m)
        else
          match PyInt(Slice(line, 2, 8))
          case None => Err(InvalidInteger(Slice(line, 2, 8)))
          case Some(c) => Ok(if c > m then c else m)
  }

  /** The record `add_transaction` builds for transaction `n`; its `reserved` holds 93
      spaces, which the formatter pads to the 95 columns of the field. */
  function NewRecord(n: nat, cents: nat, currency: string): Record
  {
    map["field_id" := "02", "counter" := CounterText(n),
        "amount" := ZFill(NatToString(cents), 12), "currency" := currency,
        "reserved" := Spaces(93)]
  }

  /** The footer record `add_transaction` writes: the parsed footer with `total_count`
      set to the new counter and `control_sum` set to `sum`. */
  function NewFooter(footer: Record, n: nat, sum: nat): Record
  {
    footer["total_count" := CounterText(n)]["control_sum" := ZFill(NatToString(sum), 12)]
  }

  /** What `add_transaction` writes for an amount of `cents`, given the outcome `scan` of
      its scan for the largest counter: the scan's error, or the file with the record
      numbered one past the largest counter `Inserted`. */
  function AddedFile(scan: Result<nat, Error>, lines: seq<string>, counter: nat, cents: nat, currency: string): Result<seq<string>, Error>
  {
    if scan.Err? then Err(scan.error)
    else Inserted(lines, NewRecordLine(scan.value + 1, cents, currency), scan.value + 1, counter, cents)
  }

  /** The line `add_transaction` inserts for the transaction numbered `n`. */
  function NewRecordLine(n: nat, cents: nat, currency: string): string
  {
    Format(NewRecord(n, cents, currency), Transaction) + LineEnd
  }

  /** `lines.insert(len(lines) - 1, t)`: `t` goes in front of the last line; into an
      empty list (where the index -1 is clamped to 0) it becomes the only line. */
  function InsertBeforeLast(lines: seq<string>, t: string): (r: seq<string>)
    ensures |r| == |lines| + 1
    ensures r[|r| - 1] == if lines == [] then t else lines[|lines| - 1]
    ensures lines != [] ==> r[..|lines| - 1] == lines[..|lines| - 1] && r[|lines| - 1] == t
  {
    var at := if lines == [] then 0 else |lines| - 1;
    lines[..at] + [t] + lines[at..]
  }

  /** The footer line `add_transaction` writes in place of `line`: `line` parsed as a
      FOOTER and formatted back with `total_count` = `n` and the control sum increased
      by `cents`; a control sum that is not a whole number raises. */
  function FooterLine(line: string, n: nat, counter: nat, cents: nat): Result<string, Error>
  {
    match ParseRecord(line, Footer, counter)
    case Err(e) => Err(e)
    case Ok(footer) =>
      var sum := Get(footer, "control_sum");
      match PyInt(sum)
      case None => Err(InvalidInteger(sum))
      case Some(s) => Ok(Format(NewFooter(footer, n, s + cents), Footer) + LineEnd)
  }

  /** The rest of `add_transaction` once the new line `t` is built for the counter `n`:
      `t` is inserted in front of the last line, and the line after it is replaced by
      its `FooterLine`. */
  function Inserted(lines: seq<string>, t: string, n: nat, counter: nat, cents: nat): Result<seq<string>, Error>
  {
    var inserted := InsertBeforeLast(lines, t);
    match FooterLine(inserted[|inserted| - 1], n, counter, cents)
    case Err(e) => Err(e)
    case Ok(u) => Ok(inserted[|inserted| - 1 := u])
  }

  /** `add_transaction`'s scan succeeds exactly when every line that starts with `"02"`
      has a whole number in columns 2 to 8. */
  lemma {:induction false} MaxCounterOk(lines: seq<string>)
    ensures MaxCounter(lines).Ok? <==>
      forall i :: 0 <= i < |lines| && StartsWith(lines[i], "02") ==> PyInt(Slice(lines[i], 2, 8)).Some?
  {
    if lines != [] {
      var n := |lines| - 1;
      MaxCounterOk(lines[..n]);
      PrefixIndices(lines, n);
    }
  }

  /** The scan's result bounds every counter in the file and, unless it is 0, is one of
      them. */
  lemma {:induction false} MaxCounterIsMax(lines: seq<string>)
    requires MaxCounter(lines).Ok?
    ensures forall i :: 0 <= i < |lines| && StartsWith(lines[i], "02") ==>
      PyInt(Slice(lines[i], 2, 8)).Some? && PyInt(Slice(lines[i], 2, 8)).value <= MaxCounter(lines).value
    ensures MaxCounter(lines).value > 0 ==>
      exists i :: 0 <= i < |lines| && StartsWith(lines[i], "02") && PyInt(Slice(lines[i], 2, 8)) == Some(MaxCounter(lines).value)
  {
    if lines != [] {
      var n := |lines| - 1;
      MaxCounterIsMax(lines[..n]);
      PrefixIndices(lines, n);
      var m := MaxCounter(lines[..n]).value;
      if m > 0 && MaxCounter(lines).value == m {
        var i :| 0 <= i < n && StartsWith(lines[..n][i], "02") && PyInt(Slice(lines[..n][i], 2, 8)) == Some(m);
        assert lines[i] == lines[..n][i];
      }
    }
  }

  /** The line `add_transaction` inserts is the one the document layer writes for the
      same counter, amount and currency: 93 spaces of `reserved` are padded to 95. */
  lemma NewRecordLineAgrees(n: nat, cents: nat, currency: string)
    ensures NewRecordLine(n, cents, currency) == Document.TransactionLine(n, cents, currency)
  {
    var d1, d2 := NewRecord(n, cents, currency), Document.NewTransaction(n, cents, currency);
    forall f | f in Fields(Transaction) ensures Encode(d1, f) == Encode(d2, f) {
      if f.name == "reserved" {
        assert Encode(d1, f) == Spaces(93) + Spaces(2);
      }
    }
    FormatFieldsAgree(d1, d2, Fields(Transaction));
  }

  /** The footer `add_transaction` writes is the one the document layer's `update_footer`
      writes for the same count and sum: `_parse_line` leaves a footer as read. */
  lemma NewFooterLine(line: string, counter: nat, n: nat, sum: nat)
    ensures ParseRecord(line, Footer, counter).Ok?
    ensures Get(ParseRecord(line, Footer, counter).value, "control_sum") == Get(Parse(line, Footer), "control_sum")
    ensures Format(NewFooter(ParseRecord(line, Footer, counter).value, n, sum), Footer) + LineEnd
         == Document.UpdatedFooter(Parse(line, Footer), n, sum)
  {
    OtherKindsAgree(line, Footer, counter);
    var d := ParseRecord(line, Footer, counter).value;
    assert Fields(Footer)[2].name == "control_sum";
    NewFooterAgrees(d, Parse(line, Footer), n, sum);
  }

  /** Footers that agree on every footer field still agree once `add_transaction` and
      `update_footer` have set the same count and sum. */
  lemma NewFooterAgrees(d1: Record, d2: Record, n: nat, sum: nat)
    requires forall f :: f in Fields(Footer) ==> Get(d1, f.name) == Get(d2, f.name)
    ensures Format(NewFooter(d1, n, sum), Footer) == Format(Document.FooterRecord(d2, n, sum), Footer)
  {
    var e1, e2 := NewFooter(d1, n, sum), Document.FooterRecord(d2, n, sum);
    forall f | f in Fields(Footer) ensures Get(e1, f.name) == Get(e2, f.name) {
    }
    FormatIgnoresOtherKeys(e1, e2, Footer);
  }

  /** The footer `add_transaction` writes is the document layer's rewrite of the same
      line: the same count, the same sum and the same error. */
  lemma FooterLineAgrees(line: string, n: nat, counter: nat, cents: nat)
    ensures FooterLine(line, n, counter, cents) == Document.FooterRewrite(line, n, cents)
  {
    var sum := Get(Parse(line, Footer), "control_sum");
    match PyInt(sum)
    case None =>
      NewFooterLine(line, counter, n, 0);
      assert Document.FooterRewrite(line, n, cents) == Err(InvalidInteger(sum));
    case Some(v) =>
      NewFooterLine(line, counter, n, v + cents);
      FooterLineOk(line, n, counter, cents, v);
      FooterRewriteOk(line, n, cents, v);
  }

  /** `FooterLine` when the footer's control sum is the whole number `v`. */
  lemma FooterLineOk(line: string, n: nat, counter: nat, cents: nat, v: nat)
    requires ParseRecord(line, Footer, counter).Ok?
    requires PyInt(Get(ParseRecord(line, Footer, counter).value, "control_sum")) == Some(v)
    ensures FooterLine(line, n, counter, cents) ==
      Ok(Format(NewFooter(ParseRecord(line, Footer, counter).value, n, v + cents), Footer) + LineEnd)
  {
  }

  /** Whatever line is inserted, `add_transaction` replaces the line after it by the
      document layer's rewrite of that line. */
  lemma InsertedAgrees(lines: seq<string>, t: string, n: nat, counter: nat, cents: nat)
    ensures Inserted(lines, t, n, counter, cents) ==
      var inserted := InsertBeforeLast(lines, t);
      match Document.FooterRewrite(inserted[|inserted| - 1], n, cents)
      case Err(e) => Err(e)
      case Ok(u) => Ok(inserted[|inserted| - 1 := u])
  {
    var inserted := InsertBeforeLast(lines, t);
    FooterLineAgrees(inserted[|inserted| - 1], n, counter, cents);
  }

  /** The document layer's footer rewrite when the control sum is the whole number `v`. */
  lemma FooterRewriteOk(line: string, n: nat, cents: nat, v: nat)
    requires PyInt(Get(Parse(line, Footer), "control_sum")) == Some(v)
    ensures Document.FooterRewrite(line, n, cents) == Ok(Document.UpdatedFooter(Parse(line, Footer), n, v + cents))
  {
  }

  /** One more line is one more step of the counter scan. */
  lemma MaxCounterStep(lines: seq<string>, i: nat)
    requires i < |lines|
    ensures MaxCounter(lines[..i + 1]) ==
      match MaxCounter(lines[..i])
      case Err(e) => Err(e)
      case Ok(m) =>
        if !StartsWith(lines[i], "02") then Ok(m)
        else
          match PyInt(Slice(lines[i], 2, 8))
          case None => Err(InvalidInteger(Slice(lines[i], 2, 8)))
          case Some(c) => Ok(if c > m then c else m)
  {
    assert lines[..i + 1][..i] == lines[..i];
  }

  /** Once the scan raises, the rest of the lines do not change the error. */
  lemma {:induction false} MaxCounterStops(lines: seq<string>, j: nat)
    requires j <= |lines| && MaxCounter(lines[..j]).Err?
    ensures MaxCounter(lines) == MaxCounter(lines[..j])
    decreases |lines|
  {
    if j < |lines| {
      var n := |lines| - 1;
      assert lines[..n][..j] == lines[..j];
      MaxCounterStops(lines[..n], j);
    } else {
      assert lines[..j] == lines;
    }
  }

  /** A line whose counter columns read one past the largest counter of the file,
      as the line `add_transaction` builds does (`CounterColumns`), shares its
      counter with no `"02"` line of the file. */
  lemma NewCounterFresh(lines: seq<string>, t: string)
    requires MaxCounter(lines).Ok?
    requires StartsWith(t, "02") && PyInt(Slice(t, 2, 8)) == Some(MaxCounter(lines).value + 1)
    ensures forall i :: 0 <= i < |lines| && StartsWith(lines[i], "02") ==>
      PyInt(Slice(lines[i], 2, 8)).Some? && PyInt(Slice(lines[i], 2, 8)) != PyInt(Slice(t, 2, 8))
  {
    MaxCounterIsMax(lines);
  }

  /** The line built for the transaction numbered `n` starts with `"02"` and carries
      `n` in columns 2 to 8. */
  lemma CounterColumns(n: nat, cents: nat, currency: string)
    requires n < Pow10(6) && cents < Pow10(12) && |currency| <= 3 && IsStripped(currency)
    ensures StartsWith(NewRecordLine(n, cents, currency), "02")
    ensures PyInt(Slice(NewRecordLine(n, cents, currency), 2, 8)) == Some(n)
  {
    NewRecordLineAgrees(n, cents, currency);
    Document.TransactionLineStart(n, cents, currency);
    Document.TransactionLineReadsBack(n, cents, currency);
    CounterColumnText(Document.TransactionLine(n, cents, currency));
  }

  /** A TRANSACTION's parsed counter is its columns 2 to 8 stripped, and `int()` of it
      is `int()` of those columns. */
  lemma CounterColumnText(line: string)
    ensures Get(Parse(line, Transaction), "counter") == Strip(Slice(line, 2, 8))
    ensures PyInt(Strip(Slice(line, 2, 8))) == PyInt(Slice(line, 2, 8))
  {
    var f := Field("counter", 2, 8);
    assert f == Fields(Transaction)[1];
    ParseLineFields(line, Transaction);
    assert Parse(line, Transaction)[f.name] == FieldText(line, f);
    assert FieldText(line, f) == Strip(Slice(line, 2, 8));
  }

  /** `add_transaction` adds exactly one line: the lines before the last are kept, the
      new transaction follows them, and only the footer after it is rewritten. */
  lemma InsertedShape(lines: seq<string>, t: string, n: nat, counter: nat, cents: nat)
    requires Inserted(lines, t, n, counter, cents).Ok?
    ensures var out := Inserted(lines, t, n, counter, cents).value;
      && |out| == |lines| + 1
      && (lines != [] ==> out[..|lines| - 1] == lines[..|lines| - 1] && out[|lines| - 1] == t)
  {
    var inserted := InsertBeforeLast(lines, t);
    var out := Inserted(lines, t, n, counter, cents).value;
    InsertedAgrees(lines, t, n, counter, cents);
    if lines != [] {
      assert out[..|lines| - 1] == inserted[..|lines| - 1];
    }
  }

  /** Whether `set_value` edits the record parsed as `d` of kind `k`: a non-empty
      counter was given, the record is a TRANSACTION and its renumbered counter is
      that text. */
  predicate Selected(target: Option<string>, k: Kind, d: Record)
  {
    target.Some? && target.value != [] && k == Transaction && Get(d, "counter") == target.value
  }

  /** The record `set_value` writes for a selected transaction: the amount is taken
      as a decimal number of units and stored as twelve digits of cents; another
      field is replaced when the record has it (`None`: no such field, no change). */
  function EditedRecord(d: Record, fieldName: string, value: string): Result<Option<Record>, Error>
  {
    if fieldName == "amount" then
      match DecimalCents(value)
      case None => Err(InvalidDecimal(value))
      case Some(c) => Ok(Some(d["amount" := ZFill(NatToString(c), 12)]))
    else if fieldName in d then Ok(Some(d[fieldName := value]))
    else Ok(None)
  }

  /** What `set_value` makes of one line: its new text, the running count after it,
      whether a field was changed, and the error that stops the edit. */
  datatype LineEdit = LineEdit(text: string, counter: nat, updated: bool, error: Option<Error>)

  /** One line of `set_value`: a line whose stripped text is not a record is kept as
      it is; a record is classified, parsed (which counts a TRANSACTION), edited when
      selected and formatted back. */
  function EditLine(line: string, counter: nat, fieldName: string, value: string, target: Option<string>): LineEdit
  {
    var clean := Strip(line);
    if |clean| != RecordLength then LineEdit(line, counter, false, None)
    else
      match GetRecordType(clean)
      case Err(e) => LineEdit(line, counter, false, Some(e))
      case Ok(k) =>
        match ParseRecord(clean, k, counter)
        case Err(e) => LineEdit(line, counter, false, Some(e))
        case Ok(d) =>
          var next := if k == Transaction then counter + 1 else counter;
          if !Selected(target, k, d) then LineEdit(Format(d, k) + LineEnd, next, false, None)
          else
            match EditedRecord(d, fieldName, value)
            case Err(e) => LineEdit(line, next, false, Some(e))
            case Ok(None) => LineEdit(Format(d, k) + LineEnd, next, false, None)
            case Ok(Some(d')) => LineEdit(Format(d', k) + LineEnd, next, true, None)
  }

  /** The state of `set_value` after its loop: the new lines, the running count,
      whether any field changed, and the error that stopped it. */
  datatype Edit = Edit(out: seq<string>, counter: nat, updated: bool, error: Option<Error>)

  /** `set_value`'s loop over `lines`, in order, from the running count `counter`;
      the first failing line stops it. */
  function EditAll(lines: seq<string>, counter: nat, fieldName: string, value: string, target: Option<string>): Edit
  {
    if lines == [] then Edit([], counter, false, None)
    else
      var p := EditAll(lines[..|lines| - 1], counter, fieldName, value, target);
      if p.error.Some? then p
      else
        var l := EditLine(lines[|lines| - 1], p.counter, fieldName, value, target);
        Edit(p.out + [l.text], l.counter, p.updated || l.updated, l.error)
  }

  /** One more line is one more step of `set_value`'s loop. */
  lemma EditAllStep(lines: seq<string>, counter: nat, fieldName: string, value: string, target: Option<string>, i: nat)
    requires i < |lines|
    ensures var p := EditAll(lines[..i], counter, fieldName, value, target);
      EditAll(lines[..i + 1], counter, fieldName, value, target) ==
        if p.error.Some? then p
        else
          var l := EditLine(lines[i], p.counter, fieldName, value, target);
          Edit(p.out + [l.text], l.counter, p.updated || l.updated, l.error)
  {
    assert lines[..i + 1][..i] == lines[..i];
  }

  /** Once a line fails, the rest of the lines change nothing. */
  lemma {:induction false} EditAllStops(lines: seq<string>, counter: nat, fieldName: string, value: string, target: Option<string>, i: nat)
    requires i <= |lines|
    requires EditAll(lines[..i], counter, fieldName, value, target).error.Some?
    ensures EditAll(lines, counter, fieldName, value, target) == EditAll(lines[..i], counter, fieldName, value, target)
    decreases |lines| - i
  {
    if i < |lines| {
      EditAllStep(lines, counter, fieldName, value, target, i);
      EditAllStops(lines, counter, fieldName, value, target, i + 1);
    } else {
      assert lines[..i] == lines;
    }
  }

  /** Replacing the first unprocessed line extends the processed prefix. */
  lemma ReplaceNext(out: seq<string>, lines: seq<string>, i: nat)
    requires |out| == i + 1 && i < |lines|
    ensures (out[..i] + lines[i..])[i := out[i]] == out + lines[i + 1..]
  {
  }

  /** How `set_value` leaves a line it does not edit, given the running count before
      it: a line that is not a record is kept as it is, a HEADER or FOOTER is formatted
      back from its own text (a footer's count and sum are not recomputed), and a
      TRANSACTION is formatted back from its parse, which renumbers it `counter + 1`. */
  predicate Preserved(line: string, counter: nat, text: string)
  {
    var clean := Strip(line);
    if |clean| != RecordLength then text == line
    else
      match GetRecordType(clean)
      case Ok(k) =>
        if k != Transaction then text == Format(Parse(clean, k), k) + LineEnd
        else
          && ParseRecord(clean, Transaction, counter).Ok?
          && text == Format(ParseRecord(clean, Transaction, counter).value, Transaction) + LineEnd
      case Err(_) => false
  }

  /** What one line of `set_value` does when it raises nothing: a field changes only on
      the TRANSACTION numbered `counter + 1` in parse order, for a field of the table,
      and every line it does not change is preserved. */
  lemma EditLineKeeps(line: string, counter: nat, fieldName: string, value: string, target: Option<string>)
    requires EditLine(line, counter, fieldName, value, target).error.None?
    ensures var r := EditLine(line, counter, fieldName, value, target);
      && (!r.updated ==> Preserved(line, counter, r.text))
      && (r.updated ==>
            && |Strip(line)| == RecordLength
            && GetRecordType(Strip(line)) == Ok(Transaction)
            && target == Some(CounterText(counter + 1))
            && fieldName in FieldNames(Transaction))
  {
    var clean := Strip(line);
    if |clean| == RecordLength && GetRecordType(clean).Ok? {
      var k := GetRecordType(clean).value;
      if k != Transaction {
        OtherKindsAgree(clean, k, counter);
      } else {
        TransactionLineKeeps(line, counter, fieldName, value, target);
      }
    }
  }

  /** `EditLineKeeps` for a record line that is a TRANSACTION. */
  lemma TransactionLineKeeps(line: string, counter: nat, fieldName: string, value: string, target: Option<string>)
    requires EditLine(line, counter, fieldName, value, target).error.None?
    requires |Strip(line)| == RecordLength && GetRecordType(Strip(line)) == Ok(Transaction)
    ensures var r := EditLine(line, counter, fieldName, value, target);
      && (!r.updated ==> Preserved(line, counter, r.text))
      && (r.updated ==> target == Some(CounterText(counter + 1)) && fieldName in FieldNames(Transaction))
  {
    var clean := Strip(line);
    var r := EditLine(line, counter, fieldName, value, target);
    assert ParseRecord(clean, Transaction, counter).Ok?;
    var d := ParseRecord(clean, Transaction, counter).value;
    if !Selected(target, Transaction, d) {
      assert r.text == Format(d, Transaction) + LineEnd && !r.updated;
    } else {
      ParseRecordCounter(clean, counter);
      ParseRecordKeys(clean, Transaction, counter);
      var e := EditedRecord(d, fieldName, value);
      assert e.Ok?;
      if e.value.None? {
        assert r.text == Format(d, Transaction) + LineEnd && !r.updated;
      } else {
        assert "amount" in FieldNames(Transaction) by {
          assert Field("amount", 8, 20) in Fields(Transaction);
        }
        assert fieldName in d.Keys;
      }
    }
  }

  /** A TRANSACTION that `set_value` does not edit is written back with its parse-order
      number as its counter, whatever its counter columns held before. */
  lemma PreservedRenumbers(line: string, counter: nat, text: string)
    requires Preserved(line, counter, text) && |Strip(line)| == RecordLength
    requires GetRecordType(Strip(line)) == Ok(Transaction) && counter + 1 < Pow10(6)
    ensures |text| == RecordLength
    ensures Get(Parse(text, Transaction), "counter") == CounterText(counter + 1)
  {
    var clean := Strip(line);
    var d := ParseRecord(clean, Transaction, counter).value;
    ParsedTransactionFits(clean, counter);
    ParseRecordCounter(clean, counter);
    FormattedLine(d, Transaction);
    FormatThenParse(d, Transaction);
    assert Field("counter", 2, 8) in Fields(Transaction);
  }

  /** Line `i` of `out` is what `set_value` may make of line `i` of `lines`: the line
      preserved from the running count before it, unless it is the TRANSACTION whose
      parse-order number is the target. */
  predicate LineKept(lines: seq<string>, counter: nat, fieldName: string, value: string, target: Option<string>, out: seq<string>, i: nat)
  {
    && i < |lines| && i < |out|
    && var c := EditAll(lines[..i], counter, fieldName, value, target).counter;
       || Preserved(lines[i], c, out[i])
       || (&& |Strip(lines[i])| == RecordLength
           && GetRecordType(Strip(lines[i])) == Ok(Transaction)
           && target == Some(CounterText(c + 1)))
  }

  /** `set_value` without an error keeps the number of lines, and every line is
      preserved from the running count before it, but for a TRANSACTION whose
      parse-order number is the target. */
  lemma {:induction false} EditAllKeeps(lines: seq<string>, counter: nat, fieldName: string, value: string, target: Option<string>)
    requires EditAll(lines, counter, fieldName, value, target).error.None?
    ensures var out := EditAll(lines, counter, fieldName, value, target).out;
      && |out| == |lines|
      && forall i :: 0 <= i < |lines| ==> LineKept(lines, counter, fieldName, value, target, out, i)
  {
    if lines != [] {
      var n := |lines| - 1;
      var p := EditAll(lines[..n], counter, fieldName, value, target);
      EditAllKeeps(lines[..n], counter, fieldName, value, target);
      var out := EditAll(lines, counter, fieldName, value, target).out;
      assert out == p.out + [EditLine(lines[n], p.counter, fieldName, value, target).text];
      KeptLast(lines, counter, fieldName, value, target, out, n);
      KeptStep(lines, counter, fieldName, value, target, p.out, out);
    }
  }

  /** Lines kept among all but the last, with the last line kept, are all kept. */
  lemma KeptStep(lines: seq<string>, counter: nat, fieldName: string, value: string, target: Option<string>,
                 prefixOut: seq<string>, out: seq<string>)
    requires |prefixOut| + 1 == |lines| == |out| && out[..|prefixOut|] == prefixOut
    requires forall i :: 0 <= i < |prefixOut| ==> LineKept(lines[..|prefixOut|], counter, fieldName, value, target, prefixOut, i)
    requires LineKept(lines, counter, fieldName, value, target, out, |prefixOut|)
    ensures forall i :: 0 <= i < |lines| ==> LineKept(lines, counter, fieldName, value, target, out, i)
  {
    var n := |prefixOut|;
    forall i | 0 <= i < |lines| ensures LineKept(lines, counter, fieldName, value, target, out, i) {
      if i < n {
        assert out[i] == out[..n][i];
        KeptInPrefix(lines, counter, fieldName, value, target, n, prefixOut, out, i);
      } else {
        assert i == n;
      }
    }
  }

  /** What `set_value` makes of the last line, after the lines before it raised nothing,
      is kept. */
  lemma KeptLast(lines: seq<string>, counter: nat, fieldName: string, value: string, target: Option<string>, out: seq<string>, i: nat)
    requires i + 1 == |lines| == |out|
    requires var p := EditAll(lines[..i], counter, fieldName, value, target);
      var l := EditLine(lines[i], p.counter, fieldName, value, target);
      l.error.None? && out[i] == l.text
    ensures LineKept(lines, counter, fieldName, value, target, out, i)
  {
    EditLineKeeps(lines[i], EditAll(lines[..i], counter, fieldName, value, target).counter, fieldName, value, target);
  }

  /** A line kept among the first `n` lines is kept among all of them. */
  lemma KeptInPrefix(lines: seq<string>, counter: nat, fieldName: string, value: string, target: Option<string>,
                     n: nat, prefixOut: seq<string>, out: seq<string>, i: nat)
    requires i < n <= |lines| && i < |prefixOut| && i < |out| && out[i] == prefixOut[i]
    requires LineKept(lines[..n], counter, fieldName, value, target, prefixOut, i)
    ensures LineKept(lines, counter, fieldName, value, target, out, i)
  {
    PrefixLine(lines, n, i);
  }

  /** Line `i` is a TRANSACTION whose parse-order number, counted from `counter` as
      `set_value`'s loop counts, is the target. */
  predicate IsTarget(lines: seq<string>, counter: nat, fieldName: string, value: string, target: Option<string>, i: nat)
  {
    && i < |lines|
    && |Strip(lines[i])| == RecordLength
    && GetRecordType(Strip(lines[i])) == Ok(Transaction)
    && target == Some(CounterText(EditAll(lines[..i], counter, fieldName, value, target).counter + 1))
  }

  /** Some TRANSACTION of `lines` has the target as its parse-order number. */
  predicate TargetFound(lines: seq<string>, counter: nat, fieldName: string, value: string, target: Option<string>)
  {
    exists i: nat :: i < |lines| && IsTarget(lines, counter, fieldName, value, target, i)
  }

  /** `set_value` writes only when it was given a non-empty counter and a field name
      of the TRANSACTION table, and some TRANSACTION's parse-order number is that
      counter. */
  lemma {:induction false} EditAllUpdated(lines: seq<string>, counter: nat, fieldName: string, value: string, target: Option<string>)
    requires EditAll(lines, counter, fieldName, value, target).updated
    ensures target.Some? && target.value != [] && fieldName in FieldNames(Transaction)
    ensures TargetFound(lines, counter, fieldName, value, target)
  {
    var n := |lines| - 1;
    var p := EditAll(lines[..n], counter, fieldName, value, target);
    if p.updated {
      EditAllUpdated(lines[..n], counter, fieldName, value, target);
      var i: nat :| IsTarget(lines[..n], counter, fieldName, value, target, i);
      SelectedInPrefix(lines, counter, fieldName, value, target, n, i);
      assert IsTarget(lines, counter, fieldName, value, target, i);
    } else {
      EditLineKeeps(lines[n], p.counter, fieldName, value, target);
      assert IsTarget(lines, counter, fieldName, value, target, n);
    }
  }

  /** A TRANSACTION among the first `n` lines whose parse-order number is the target
      is one among all the lines. */
  lemma SelectedInPrefix(lines: seq<string>, counter: nat, fieldName: string, value: string, target: Option<string>, n: nat, i: nat)
    requires n <= |lines| && IsTarget(lines[..n], counter, fieldName, value, target, i)
    ensures IsTarget(lines, counter, fieldName, value, target, i)
  {
    PrefixLine(lines, n, i);
    var before := lines[..n][..i];
    assert before == lines[..i];
    assert EditAll(before, counter, fieldName, value, target) == EditAll(lines[..i], counter, fieldName, value, target);
  }

  /** The converse of `EditAllUpdated`: when `set_value` raises nothing, a record line
      that is the TRANSACTION whose parse-order number is the target, with a field of
      the TRANSACTION table, is written, so `set_value` returns true. */
  lemma EditAllTargetUpdated(lines: seq<string>, counter: nat, fieldName: string, value: string, target: Option<string>, i: nat)
    requires EditAll(lines, counter, fieldName, value, target).error.None?
    requires IsTarget(lines, counter, fieldName, value, target, i) && fieldName in FieldNames(Transaction)
    ensures EditAll(lines, counter, fieldName, value, target).updated
  {
    EditAllPrefixOk(lines, counter, fieldName, value, target, i);
    EditAllPrefixOk(lines, counter, fieldName, value, target, i + 1);
    EditAllStep(lines, counter, fieldName, value, target, i);
    var p := EditAll(lines[..i], counter, fieldName, value, target);
    EditLineTargetUpdated(lines[i], p.counter, fieldName, value, target);
    EditAllUpdatedStays(lines, counter, fieldName, value, target, i + 1);
  }

  /** The line that is the target, edited without an error, is changed. */
  lemma EditLineTargetUpdated(line: string, counter: nat, fieldName: string, value: string, target: Option<string>)
    requires EditLine(line, counter, fieldName, value, target).error.None?
    requires |Strip(line)| == RecordLength && GetRecordType(Strip(line)) == Ok(Transaction)
    requires target == Some(CounterText(counter + 1)) && fieldName in FieldNames(Transaction)
    ensures EditLine(line, counter, fieldName, value, target).updated
  {
    var clean := Strip(line);
    assert ParseRecord(clean, Transaction, counter).Ok?;
    var d := ParseRecord(clean, Transaction, counter).value;
    ParseRecordCounter(clean, counter);
    ParseRecordKeys(clean, Transaction, counter);
    assert |CounterText(counter + 1)| >= 6;
    assert Selected(target, Transaction, d);
    var e := EditedRecord(d, fieldName, value);
    assert e.Ok?;
    assert fieldName in d.Keys;
    assert e.value.Some?;
  }

  /** When `set_value` raises nothing, no part of its loop raised. */
  lemma {:induction false} EditAllPrefixOk(lines: seq<string>, counter: nat, fieldName: string, value: string, target: Option<string>, j: nat)
    requires j <= |lines| && EditAll(lines, counter, fieldName, value, target).error.None?
    ensures EditAll(lines[..j], counter, fieldName, value, target).error.None?
    decreases |lines| - j
  {
    if j == |lines| {
      assert lines[..j] == lines;
    } else {
      EditAllPrefixOk(lines, counter, fieldName, value, target, j + 1);
      EditAllStep(lines, counter, fieldName, value, target, j);
    }
  }

  /** Once a field has changed, `set_value` stays updated over the rest of the lines. */
  lemma {:induction false} EditAllUpdatedStays(lines: seq<string>, counter: nat, fieldName: string, value: string, target: Option<string>, j: nat)
    requires j <= |lines| && EditAll(lines[..j], counter, fieldName, value, target).updated
    ensures EditAll(lines, counter, fieldName, value, target).updated
    decreases |lines| - j
  {
    if j == |lines| {
      assert lines[..j] == lines;
    } else {
      EditAllStep(lines, counter, fieldName, value, target, j);
      EditAllUpdatedStays(lines, counter, fieldName, value, target, j + 1);
    }
  }

  /** A line of the first `n` lines, and the lines before it, are those of the file. */
  lemma PrefixLine(lines: seq<string>, n: nat, i: nat)
    requires i < n <= |lines|
    ensures lines[..n][i] == lines[i] && lines[..n][..i] == lines[..i]
  {
  }

  /** A TRANSACTION `_parse_line` accepts fits its columns and has no surrounding
      whitespace in any field, while its parse-order number has at most six digits. */
  lemma ParsedTransactionFits(line: string, counter: nat)
    requires ParseRecord(line, Transaction, counter).Ok? && counter + 1 < Pow10(6)
    ensures var d := ParseRecord(line, Transaction, counter).value;
      Fits(d, Fields(Transaction)) && forall f :: f in Fields(Transaction) ==> IsStripped(Get(d, f.name))
  {
    var d := ParseRecord(line, Transaction, counter).value;
    forall f | f in Fields(Transaction) ensures |Get(d, f.name)| <= Width(f) && IsStripped(Get(d, f.name)) {
      TransactionFieldFits(line, counter, f);
    }
  }

  /** One field of a TRANSACTION `_parse_line` accepts fits its columns and has no
      surrounding whitespace. */
  lemma TransactionFieldFits(line: string, counter: nat, f: Field)
    requires ParseRecord(line, Transaction, counter).Ok? && counter + 1 < Pow10(6)
    requires f in Fields(Transaction)
    ensures var v := Get(ParseRecord(line, Transaction, counter).value, f.name);
      |v| <= Width(f) && IsStripped(v)
  {
    var d := ParseRecord(line, Transaction, counter).value;
    if f.name == "counter" {
      assert f == Field("counter", 2, 8);
      ParseRecordCounter(line, counter);
      NatToStringFits(counter + 1, 6);
      ZFillNatDigits(counter + 1, 6);
      assert |Get(d, f.name)| == 6;
    } else if f.name == "amount" {
      AmountValueFits(line, counter, f);
    } else {
      ParseRecordValues(line, Transaction, counter);
      FieldTextFits(line, f);
      assert Get(d, f.name) == FieldText(line, f);
    }
  }

  /** The amount `_parse_line` stores, `str(int(text))`, fits the amount's columns. */
  lemma AmountValueFits(line: string, counter: nat, f: Field)
    requires ParseRecord(line, Transaction, counter).Ok?
    requires f in Fields(Transaction) && f.name == "amount"
    ensures var v := Get(ParseRecord(line, Transaction, counter).value, "amount");
      |v| <= Width(f) && IsStripped(v)
  {
    var text := FieldText(line, f);
    ParseRecordOk(line, Transaction, counter);
    ParseRecordValues(line, Transaction, counter);
    assert PyInt(text).Some? && |text| <= Width(f);
    assert Strip(text) == text;
    DigitsRoundTripFits(text);
    ZFillNatDigits(PyInt(text).value, 0);
  }

  /** The line `set_value` writes for an amount holds the cents of the decimal value
      as its amount and the parsed record's other fields, so it reads back as the
      edit. */
  lemma EditLineAmount(line: string, counter: nat, value: string, target: Option<string>)
    requires EditLine(line, counter, "amount", value, target).updated
    requires counter + 1 < Pow10(6)
    requires DecimalCents(value).Some? && DecimalCents(value).value < Pow10(12)
    ensures var t := EditLine(line, counter, "amount", value, target).text;
      && GetRecordType(Strip(line)) == Ok(Transaction)
      && ParseRecord(Strip(line), Transaction, counter).Ok?
      && |t| == RecordLength
      && PyInt(Get(Parse(t, Transaction), "amount")) == DecimalCents(value)
      && forall f :: f in Fields(Transaction) && f.name != "amount" ==>
           Get(Parse(t, Transaction), f.name) == Get(ParseRecord(Strip(line), Transaction, counter).value, f.name)
  {
    var clean := Strip(line);
    EditLineUpdated(line, counter, "amount", value, target);
    var d := ParseRecord(clean, Transaction, counter).value;
    var t := EditLine(line, counter, "amount", value, target).text;
    assert t == Format(d["amount" := ZFill(NatToString(DecimalCents(value).value), 12)], Transaction) + LineEnd;
    ParsedTransactionFits(clean, counter);
    AmountEditReadsBack(d, DecimalCents(value).value);
  }

  /** A line `set_value` changes is a TRANSACTION that parses, and the line written is
      its edited record formatted. */
  lemma EditLineUpdated(line: string, counter: nat, fieldName: string, value: string, target: Option<string>)
    requires EditLine(line, counter, fieldName, value, target).updated
    ensures GetRecordType(Strip(line)) == Ok(Transaction)
    ensures ParseRecord(Strip(line), Transaction, counter).Ok?
    ensures var e := EditedRecord(ParseRecord(Strip(line), Transaction, counter).value, fieldName, value);
      && e.Ok? && e.value.Some?
      && EditLine(line, counter, fieldName, value, target).text == Format(e.value.value, Transaction) + LineEnd
  {
  }

  /** A fitting TRANSACTION record whose amount is set to `cents` zero-filled to twelve
      digits formats to a record line whose amount reads back as `cents` and whose
      other fields read back as the record's. */
  lemma AmountEditReadsBack(d: Record, cents: nat)
    requires Fits(d, Fields(Transaction)) && forall f :: f in Fields(Transaction) ==> IsStripped(Get(d, f.name))
    requires cents < Pow10(12)
    ensures var t := Format(d["amount" := ZFill(NatToString(cents), 12)], Transaction) + LineEnd;
      && |t| == RecordLength
      && PyInt(Get(Parse(t, Transaction), "amount")) == Some(cents)
      && forall f :: f in Fields(Transaction) && f.name != "amount" ==>
           Get(Parse(t, Transaction), f.name) == Get(d, f.name)
  {
    var d' := d["amount" := ZFill(NatToString(cents), 12)];
    AmountEditFits(d, cents);
    PyIntZFill(cents, 12);
    FormattedLine(d', Transaction);
    FormatThenParse(d', Transaction);
    assert Field("amount", 8, 20) in Fields(Transaction);
  }

  /** A fitting TRANSACTION record still fits with its amount set to at most twelve
      zero-filled digits. */
  lemma AmountEditFits(d: Record, cents: nat)
    requires Fits(d, Fields(Transaction)) && forall f :: f in Fields(Transaction) ==> IsStripped(Get(d, f.name))
    requires cents < Pow10(12)
    ensures var d' := d["amount" := ZFill(NatToString(cents), 12)];
      Fits(d', Fields(Transaction)) && forall f :: f in Fields(Transaction) ==> IsStripped(Get(d', f.name))
  {
    var z := ZFill(NatToString(cents), 12);
    var d' := d["amount" := z];
    NatToStringFits(cents, 12);
    ZFillNatDigits(cents, 12);
    forall f | f in Fields(Transaction)
      ensures |Get(d', f.name)| <= Width(f) && IsStripped(Get(d', f.name))
    {
      if f.name == "amount" {
        assert Get(d', f.name) == z && Width(f) == 12;
      } else {
        assert Get(d', f.name) == Get(d, f.name);
      }
    }
  }
}
