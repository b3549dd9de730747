/**
 * The document layer built on the record codec (`FixedWidthFile` of
 * `fixed_width_file.py`): it validates a whole file, counts its transactions, finds
 * the footer by scanning from the end, appends a transaction in front of the footer
 * and edits one field of the first record that matches a transaction counter.
 *
 * The file is the line sequence the file manager reads; every sequence handed to the
 * file manager for writing is appended to `written` and becomes the file's content.
 */
module FixedWidthFile {
  import opened Wrappers
  import opened PyStr
  import opened Layout
  import opened RecordParser

  /** The number of lines that start with the TRANSACTION prefix `"02"`. */
  function CountTransactionLines(lines: seq<string>): (n: nat)
    ensures n <= |lines|
  {
    if lines == [] then 0
    else CountTransactionLines(lines[..|lines| - 1]) + (if StartsWith(lines[|lines| - 1], "02") then 1 else 0)
  }

  /** The number of entries of `kinds` equal to `k`. */
  function CountKind(kinds: seq<Kind>, k: Kind): (n: nat)
    ensures n <= |kinds|
  {
    if kinds == [] then 0
    else CountKind(kinds[..|kinds| - 1], k) + (if kinds[|kinds| - 1] == k then 1 else 0)
  }

  /** One line of `process_content`: strip it, require the record length, classify it
      by its prefix, parse it and check a transaction's currency. */
  function ProcessLine(line: string): Result<(Kind, Record), Error>
  {
    var clean := Strip(line);
    if |clean| != RecordLength then Err(InvalidLineLength(|clean|))
    else match GetRecordType(clean)
      case Err(e) => Err(e)
      case Ok(k) =>
        var data := Parse(clean, k);
        match ValidateData(data, k)
        case Err(e) => Err(e)
        case Ok(_) => Ok((k, data))
  }

  /** What `process_content` has produced after some lines: the records and their kinds
      in input order, and the error that stopped it, if one did. */
  datatype Processed = Processed(records: seq<Record>, kinds: seq<Kind>, error: Option<Error>)

  /** `process_content` over `content`: the lines are processed in order and the first
      failing line stops the loop. */
  function ProcessAll(content: seq<string>): (p: Processed)
    ensures |p.records| == |p.kinds| <= |content|
  {
    if content == [] then Processed([], [], None)
    else ProcessNext(ProcessAll(content[..|content| - 1]), content[|content| - 1])
  }

  /** One more line after `p`: nothing once an error has occurred, otherwise the line's
      record and kind are appended or its error recorded. */
  function ProcessNext(p: Processed, line: string): (q: Processed)
    ensures |p.records| == |p.kinds| ==> |q.records| == |q.kinds| <= |p.records| + 1
  {
    if p.error.Some? then p
    else match ProcessLine(line)
      case Err(e) => Processed(p.records, p.kinds, Some(e))
      case Ok(kd) => Processed(p.records + [kd.1], p.kinds + [kd.0], None)
  }

  /** A footer line starts with the FOOTER prefix `"03"`; `FooterTest` shows this is the
      test `find_footer` applies. */
  predicate IsFooterLine(line: string)
  {
    StartsWith(line, "03")
  }

  /** The index of the last footer line, scanning from the end. */
  function LastFooter(lines: seq<string>): (r: Option<nat>)
    ensures r.Some? ==> r.value < |lines| && IsFooterLine(lines[r.value])
    ensures r.Some? ==> forall j :: r.value < j < |lines| ==> !IsFooterLine(lines[j])
    ensures r.None? ==> forall j :: 0 <= j < |lines| ==> !IsFooterLine(lines[j])
  {
    if lines == [] then None
    else if IsFooterLine(lines[|lines| - 1]) then Some(|lines| - 1)
    else LastFooter(lines[..|lines| - 1])
  }

  /** The footer record `update_footer` writes: `total_count` and `control_sum`
      replaced by zero-filled numbers, every other entry kept. */
  function FooterRecord(footer: Record, count: nat, sum: nat): Record
  {
    footer["total_count" := ZFill(NatToString(count), 6)]["control_sum" := ZFill(NatToString(sum), 12)]
  }

  /** The footer line `update_footer` writes: the footer record formatted, followed by
      the two characters `\n`. */
  function UpdatedFooter(footer: Record, count: nat, sum: nat): string
  {
    Format(FooterRecord(footer, count, sum), Footer) + LineEnd
  }

  /** The footer line `update_footer` writes in place of `footerLine`: its parse with
      `total_count` = `count` and `control_sum` increased by `cents`; a control sum that
      is not a whole number raises. */
  function FooterRewrite(footerLine: string, count: nat, cents: nat): Result<string, Error>
  {
    var footer := Parse(footerLine, Footer);
    var sum := Get(footer, "control_sum");
    match PyInt(sum)
    case None => Err(InvalidInteger(sum))
    case Some(s) => Ok(UpdatedFooter(footer, count, s + cents))
  }

  /** `update_footer(lines, count, cents)`: the last footer line is rewritten; no footer
      raises. */
  function FooterUpdate(lines: seq<string>, count: nat, cents: nat): Result<seq<string>, Error>
  {
    match LastFooter(lines)
    case None => Err(FooterNotFound)
    case Some(i) =>
      match FooterRewrite(lines[i], count, cents)
      case Err(e) => Err(e)
      case Ok(u) => Ok(lines[i := u])
  }

  /** The record `add_transaction` builds for the transaction numbered `counter`. */
  function NewTransaction(counter: nat, cents: nat, currency: string): Record
  {
    map["field_id" := "02", "counter" := ZFill(NatToString(counter), 6),
        "amount" := ZFill(NatToString(cents), 12), "currency" := currency,
        "reserved" := Spaces(95)]
  }

  /** The line `add_transaction` inserts: the new record formatted, then `\n`. */
  function TransactionLine(counter: nat, cents: nat, currency: string): string
  {
    Format(NewTransaction(counter, cents, currency), Transaction) + LineEnd
  }

  /** What `add_transaction` does to the file for an amount of `cents`: `Ok(None)` when
      there is no footer (it returns without writing), `Ok(Some(out))` when it writes
      `out`, `Err` when the footer update raises. */
  function AddedLines(lines: seq<string>, counter: nat, cents: nat, currency: string): Result<Option<seq<string>>, Error>
  {
    InsertBeforeLastFooter(lines, TransactionLine(counter + 1, cents, currency), counter + 1, cents)
  }

  /** Insert `t` in front of the last footer and update the footer for `count` and
      `cents`; `Ok(None)` when there is no footer. */
  function InsertBeforeLastFooter(lines: seq<string>, t: string, count: nat, cents: nat): Result<Option<seq<string>>, Error>
  {
    match LastFooter(lines)
    case None => Ok(None)
    case Some(f) =>
      match FooterUpdate(lines[..f] + [t] + lines[f..], count, cents)
      case Err(e) => Err(e)
      case Ok(out) => Ok(Some(out))
  }

  /** `matches_transaction_counter`: no counter matches everything; otherwise the
      record's counter and the given one agree once both are zero-filled to six. */
  predicate Matches(data: Record, counter: Option<string>)
  {
    counter.None? || ZFill(Get(data, "counter"), 6) == ZFill(counter.value, 6)
  }

  /** A line whose parse as `k` matches the counter. */
  predicate LineMatches(line: string, k: Kind, counter: Option<string>)
  {
    Matches(Parse(line, k), counter)
  }

  /** The first line whose parse as `k` matches the counter. */
  function FirstMatch(lines: seq<string>, k: Kind, counter: Option<string>): (r: Option<nat>)
    ensures r.Some? ==> r.value < |lines| && LineMatches(lines[r.value], k, counter)
  {
    if lines == [] then None
    else if LineMatches(lines[0], k, counter) then Some(0)
    else match FirstMatch(lines[1..], k, counter)
      case None => None
      case Some(i) => Some(i + 1)
  }

  /** No line before the first match matches, and no line at all when there is none. */
  lemma {:induction false} FirstMatchIsFirst(lines: seq<string>, k: Kind, counter: Option<string>)
    ensures FirstMatch(lines, k, counter).Some? ==>
      forall j :: 0 <= j < FirstMatch(lines, k, counter).value ==> !LineMatches(lines[j], k, counter)
    ensures FirstMatch(lines, k, counter).None? ==>
      forall j :: 0 <= j < |lines| ==> !LineMatches(lines[j], k, counter)
  {
    if lines != [] && !LineMatches(lines[0], k, counter) {
      FirstMatchIsFirst(lines[1..], k, counter);
    }
  }

  /** The value `set_value` stores: an `amount` is zero-filled to twelve characters. */
  function EditedValue(fieldName: string, newValue: string): string
  {
    if fieldName == "amount" then ZFill(newValue, 12) else newValue
  }

  /** The line `set_value` writes in place of `line`: its parse as `k` with one field
      replaced, formatted, then `\n`. */
  function EditedLine(line: string, k: Kind, fieldName: string, value: string): string
  {
    Format(Parse(line, k)[fieldName := value], k) + LineEnd
  }

  /** What `set_value` returns once it has written `lines`: the footer update that follows
      the write raises when the value is not a decimal number or the footer cannot be
      updated; its result is never written. */
  function AfterEdit(lines: seq<string>, count: nat, value: string): Result<bool, Error>
  {
    match DecimalCents(value)
    case None => Err(InvalidDecimal(value))
    case Some(cents) =>
      match FooterUpdate(lines, count, cents)
      case Err(e) => Err(e)
      case Ok(_) => Ok(true)
  }

  class FixedWidthFile {
    /** The lines `read_lines` returns: the file's current content. */
    var file: seq<string>
    /** Every line sequence handed to `write_lines`, oldest first. */
    var written: seq<seq<string>>
    var transactionCounter: nat

    /** Holds after construction and after every `AddTransaction`: the counter is the
        number of lines that start with `"02"`. */
    predicate CounterMatchesFile()
      reads this
    {
      transactionCounter == CountTransactionLines(file)
    }

    /** `__init__`: the counter starts at the number of transaction lines of the file. */
    constructor(content: seq<string>)
      ensures file == content && written == []
      ensures transactionCounter == CountTransactionLines(content)
      ensures CounterMatchesFile()
    {
      file := content;
      written := [];
      var counter := InitializeTransactionCounter(content);
      transactionCounter := counter;
    }

    /** `initialize_transaction_counter`: count the lines that start with `"02"`. */
    static method InitializeTransactionCounter(lines: seq<string>) returns (counter: nat)
      ensures counter == CountTransactionLines(lines)
    {
      counter := 0;
      for i := 0 to |lines|
        invariant counter == CountTransactionLines(lines[..i])
      {
        assert lines[..i + 1][..i] == lines[..i];
        if StartsWith(lines[i], "02") {
          counter := counter + 1;
        }
      }
      assert lines[..|lines|] == lines;
    }

    /** `process_content`: the records of `content` in order, or the first line's error;
        the counter grows by one per TRANSACTION processed before any error. */
    method ProcessContent(content: seq<string>) returns (r: Result<seq<Record>, Error>)
      modifies this
      ensures file == old(file) && written == old(written)
      ensures transactionCounter == old(transactionCounter) + CountKind(ProcessAll(content).kinds, Transaction)
      ensures ProcessAll(content).error.None? ==> r == Ok(ProcessAll(content).records)
      ensures ProcessAll(content).error.Some? ==> r == Err(ProcessAll(content).error.value)
    {
      var records: seq<Record> := [];
      ghost var kinds: seq<Kind> := [];
      for i := 0 to |content|
        invariant ProcessAll(content[..i]).error.None?
        invariant ProcessAll(content[..i]).records == records
        invariant ProcessAll(content[..i]).kinds == kinds
        invariant transactionCounter == old(transactionCounter) + CountKind(kinds, Transaction)
        invariant file == old(file) && written == old(written)
      {
        var processed := CheckLine(content[i]);
        if processed.Err? {
          ProcessAllFails(content, i, records, kinds);
          return Err(processed.error);
        }
        var k := processed.value.0;
        ProcessAllGrows(content, i, records, kinds);
        records := records + [processed.value.1];
        kinds := kinds + [k];
        transactionCounter := transactionCounter + if k == Transaction then 1 else 0;
      }
      assert content[..|content|] == content;
      return Ok(records);
    }

    /** The checks `process_content` runs on one line: strip it, require the record
        length, classify it, parse the stripped line and validate the record. */
    static method CheckLine(line: string) returns (r: Result<(Kind, Record), Error>)
      ensures r == ProcessLine(line)
    {
      var cleanLine := Strip(line);
      if |cleanLine| != RecordLength {
        return Err(InvalidLineLength(|cleanLine|));
      }
      var recordType := GetRecordType(cleanLine);
      if recordType.Err? {
        return Err(recordType.error);
      }
      var k := recordType.value;
      var data := ParseLine(cleanLine, k);
      var valid := ValidateData(data, k);
      if valid.Err? {
        return Err(valid.error);
      }
      return Ok((k, data));
    }

    /** `read`: process the file's lines. */
    method Read() returns (r: Result<seq<Record>, Error>)
      modifies this
      ensures file == old(file) && written == old(written)
      ensures transactionCounter == old(transactionCounter) + CountKind(ProcessAll(file).kinds, Transaction)
      ensures ProcessAll(file).error.None? ==> r == Ok(ProcessAll(file).records)
      ensures ProcessAll(file).error.Some? ==> r == Err(ProcessAll(file).error.value)
    {
      r := ProcessContent(file);
    }

    /** `find_footer`: scan from the last line towards the first for a footer line. */
    static method FindFooter(lines: seq<string>) returns (r: Result<(nat, Record), Error>)
      ensures LastFooter(lines).None? ==> r == Err(FooterNotFound)
      ensures LastFooter(lines).Some? ==>
        r == Ok((LastFooter(lines).value, Parse(lines[LastFooter(lines).value], Footer)))
    {
      var i := |lines|;
      while i > 0
        invariant 0 <= i <= |lines|
        invariant forall j :: i <= j < |lines| ==> !IsFooterLine(lines[j])
        decreases i
      {
        i := i - 1;
        FooterTest(lines[i]);
        if "03" == Strip(Slice(lines[i], 0, 2)) {
          LastFooterAt(lines, i);
          var footer := ParseLine(lines[i], Footer);
          return Ok((i, footer));
        }
      }
      return Err(FooterNotFound);
    }

    /** `update_footer`: rewrite the last footer line for the new count and amount. */
    static method UpdateFooter(lines: seq<string>, count: nat, cents: nat) returns (r: Result<seq<string>, Error>)
      ensures r == FooterUpdate(lines, count, cents)
    {
      var found := FindFooter(lines);
      if found.Err? {
        return Err(found.error);
      }
      var footerIndex := found.value.0;
      var footerData := found.value.1;
      footerData := footerData["total_count" := ZFill(NatToString(count), 6)];
      var currentControlSum := PyInt(Get(footerData, "control_sum"));
      if currentControlSum.None? {
        return Err(InvalidInteger(Get(footerData, "control_sum")));
      }
      footerData := footerData["control_sum" := ZFill(NatToString(currentControlSum.value + cents), 12)];
      var formatted := FormatLine(footerData, Footer);
      return Ok(lines[footerIndex := formatted + LineEnd]);
    }

    /** `add_transaction`: insert the transaction numbered `transactionCounter + 1` in
        front of the last footer, update the footer, write, and count it. Without a
        footer nothing happens; the currency is not checked. */
    method AddTransaction(cents: nat, currency: string) returns (r: Result<(), Error>)
      modifies this
      ensures var o := AddedLines(old(file), old(transactionCounter), cents, currency);
        if o.Ok? && o.value.Some? then
          r == Ok(()) && file == o.value.value && written == old(written) + [o.value.value] &&
          transactionCounter == old(transactionCounter) + 1
        else
          r == (if o.Err? then Err(o.error) else Ok(())) &&
          file == old(file) && written == old(written) && transactionCounter == old(transactionCounter)
      ensures old(CounterMatchesFile()) ==> CounterMatchesFile()
    {
      var lines := InsertTransaction(file, transactionCounter, cents, currency);
      if lines.Ok? && lines.value.Some? {
        AddedCount(file, transactionCounter, cents, currency, lines.value.value);
      }
      r := Commit(lines);
    }

    /** The part of `add_transaction` after the lines are built: a raised error is
        passed on, no footer leaves everything as it was, and new lines are written and
        counted. */
    method Commit(lines: Result<Option<seq<string>>, Error>) returns (r: Result<(), Error>)
      modifies this
      ensures if lines.Ok? && lines.value.Some? then
          r == Ok(()) && file == lines.value.value && written == old(written) + [lines.value.value] &&
          transactionCounter == old(transactionCounter) + 1
        else
          r == (if lines.Err? then Err(lines.error) else Ok(())) &&
          file == old(file) && written == old(written) && transactionCounter == old(transactionCounter)
    {
      if lines.Err? {
        return Err(lines.error);
      }
      if lines.value.None? {
        return Ok(());
      }
      file := lines.value.value;
      written := written + [lines.value.value];
      transactionCounter := transactionCounter + 1;
      return Ok(());
    }

    /** The part of `add_transaction` before the write: build the new record, find the
        footer, insert the formatted record in front of it and update the footer. */
    static method InsertTransaction(lines: seq<string>, counter: nat, cents: nat, currency: string)
      returns (r: Result<Option<seq<string>>, Error>)
      ensures r == AddedLines(lines, counter, cents, currency)
    {
      var newTransactionData := NewTransaction(counter + 1, cents, currency);
      var found := FindFooter(lines);
      if found.Err? {
        return Ok(None);
      }
      var footerIndex := found.value.0;
      var formatted := FormatLine(newTransactionData, Transaction);
      var inserted := lines[..footerIndex] + [formatted + LineEnd] + lines[footerIndex..];
      var updated := UpdateFooter(inserted, counter + 1, cents);
      if updated.Err? {
        return Err(updated.error);
      }
      return Ok(Some(updated.value));
    }

    /** `set_value`: the first line whose parse as `k` matches the counter gets the new
        value, the file is written, and then the footer update runs on the written lines
        without being written itself. */
    method SetValue(k: Kind, fieldName: string, newValue: string, counter: Option<string>) returns (r: Result<bool, Error>)
      modifies this
      ensures transactionCounter == old(transactionCounter)
      ensures FirstMatch(old(file), k, counter).None? ==>
        r == Ok(false) && file == old(file) && written == old(written)
      ensures FirstMatch(old(file), k, counter).Some? ==>
        var i := FirstMatch(old(file), k, counter).value;
        var v := EditedValue(fieldName, newValue);
        var out := old(file)[i := EditedLine(old(file)[i], k, fieldName, v)];
        file == out && written == old(written) + [out] && r == AfterEdit(out, transactionCounter, v)
    {
      var lines := file;
      var found := FindMatch(lines, k, counter);
      if found.None? {
        return Ok(false);
      }
      var i := found.value.0;
      var data := found.value.1;
      var value := EditedValue(fieldName, newValue);
      data := data[fieldName := value];
      var formatted := FormatLine(data, k);
      lines := lines[i := formatted + LineEnd];
      file := lines;
      written := written + [lines];
      r := FinishEdit(lines, transactionCounter, value);
    }

    /** The end of `set_value` after the write: the value is read as a decimal number
        of units and the footer of the written lines is updated, without writing it. */
    static method FinishEdit(lines: seq<string>, count: nat, value: string) returns (r: Result<bool, Error>)
      ensures r == AfterEdit(lines, count, value)
    {
      var cents := DecimalCents(value);
      if cents.None? {
        return Err(InvalidDecimal(value));
      }
      var footer := UpdateFooter(lines, count, cents.value);
      if footer.Err? {
        return Err(footer.error);
      }
      return Ok(true);
    }

    /** The loop of `set_value` up to its `break`: the first line whose parse as `k`
        matches the counter, with that parse. */
    static method FindMatch(lines: seq<string>, k: Kind, counter: Option<string>) returns (r: Option<(nat, Record)>)
      ensures FirstMatch(lines, k, counter).None? ==> r.None?
      ensures FirstMatch(lines, k, counter).Some? ==>
        r == Some((FirstMatch(lines, k, counter).value, Parse(lines[FirstMatch(lines, k, counter).value], k)))
    {
      for i := 0 to |lines|
        invariant forall j :: 0 <= j < i ==> !LineMatches(lines[j], k, counter)
      {
        var data := ParseLine(lines[i], k);
        var matches := Matches(data, counter);
        assert matches == LineMatches(lines[i], k, counter);
        if matches {
          FirstMatchAt(lines, k, counter, i);
          return Some((i, data));
        }
      }
      return None;
    }
  }

  /** A footer line with no footer line after it is the last footer. */
  lemma LastFooterAt(lines: seq<string>, i: nat)
    requires i < |lines| && IsFooterLine(lines[i])
    requires forall j :: i < j < |lines| ==> !IsFooterLine(lines[j])
    ensures LastFooter(lines) == Some(i)
  {
  }

  /** A matching line with no match before it is the first match. */
  lemma FirstMatchAt(lines: seq<string>, k: Kind, counter: Option<string>, i: nat)
    requires i < |lines| && LineMatches(lines[i], k, counter)
    requires forall j :: 0 <= j < i ==> !LineMatches(lines[j], k, counter)
    ensures FirstMatch(lines, k, counter) == Some(i)
  {
    FirstMatchIsFirst(lines, k, counter);
  }

  /** One more line is one more step of `process_content`. */
  lemma ProcessAllStep(content: seq<string>, i: nat)
    requires i < |content|
    ensures ProcessAll(content[..i + 1]) == ProcessNext(ProcessAll(content[..i]), content[i])
  {
    assert content[..i + 1][..i] == content[..i];
  }

  /** A failing line after lines that all succeeded is the error `process_content` raises. */
  lemma ProcessAllFails(content: seq<string>, i: nat, records: seq<Record>, kinds: seq<Kind>)
    requires i < |content| && ProcessAll(content[..i]) == Processed(records, kinds, None)
    requires ProcessLine(content[i]).Err?
    ensures ProcessAll(content) == Processed(records, kinds, Some(ProcessLine(content[i]).error))
  {
    ProcessAllFailsAt(content, i, records, kinds);
    ProcessAllStopsAt(content, i, Processed(records, kinds, Some(ProcessLine(content[i]).error)));
  }

  /** The failing line records its error after the records before it. */
  lemma ProcessAllFailsAt(content: seq<string>, i: nat, records: seq<Record>, kinds: seq<Kind>)
    requires i < |content| && ProcessAll(content[..i]) == Processed(records, kinds, None)
    requires ProcessLine(content[i]).Err?
    ensures ProcessAll(content[..i + 1]) == Processed(records, kinds, Some(ProcessLine(content[i]).error))
  {
    ProcessAllStep(content, i);
    ProcessNextFails(ProcessAll(content[..i]), content[i]);
  }

  /** One failing line after no error records the line's error. */
  lemma ProcessNextFails(p: Processed, line: string)
    requires p.error.None? && ProcessLine(line).Err?
    ensures ProcessNext(p, line) == Processed(p.records, p.kinds, Some(ProcessLine(line).error))
  {
  }

  /** What has failed after `i + 1` lines is what the whole content produces. */
  lemma ProcessAllStopsAt(content: seq<string>, i: nat, p: Processed)
    requires i < |content| && ProcessAll(content[..i + 1]) == p && p.error.Some?
    ensures ProcessAll(content) == p
  {
    ProcessAllStops(content, i + 1);
  }

  /** A succeeding line after lines that all succeeded adds its record and kind. */
  lemma ProcessAllGrows(content: seq<string>, i: nat, records: seq<Record>, kinds: seq<Kind>)
    requires i < |content| && ProcessAll(content[..i]) == Processed(records, kinds, None)
    requires ProcessLine(content[i]).Ok?
    ensures ProcessAll(content[..i + 1]) ==
      Processed(records + [ProcessLine(content[i]).value.1], kinds + [ProcessLine(content[i]).value.0], None)
    ensures CountKind(kinds + [ProcessLine(content[i]).value.0], Transaction) ==
      CountKind(kinds, Transaction) + (if ProcessLine(content[i]).value.0 == Transaction then 1 else 0)
  {
    ProcessAllStep(content, i);
    var ks := kinds + [ProcessLine(content[i]).value.0];
    assert ks[..|ks| - 1] == kinds;
  }

  /** Once a line has failed, `process_content` has stopped: later lines change nothing. */
  lemma {:induction false} ProcessAllStops(content: seq<string>, i: nat)
    requires i <= |content| && ProcessAll(content[..i]).error.Some?
    ensures ProcessAll(content) == ProcessAll(content[..i])
    decreases |content| - i
  {
    if i < |content| {
      ProcessAllStep(content, i);
      ProcessAllStops(content, i + 1);
    } else {
      assert content[..i] == content;
    }
  }

  /** The count of the first lines of a sequence and the last one. */
  lemma CountSnoc(lines: seq<string>, line: string)
    ensures CountTransactionLines(lines + [line]) ==
      CountTransactionLines(lines) + (if StartsWith(line, "02") then 1 else 0)
  {
    assert (lines + [line])[..|lines|] == lines;
  }

  /** Counting transaction lines distributes over concatenation. */
  lemma {:induction false} CountAppend(a: seq<string>, b: seq<string>)
    ensures CountTransactionLines(a + b) == CountTransactionLines(a) + CountTransactionLines(b)
    decreases |b|
  {
    if b == [] {
      assert a + b == a;
    } else {
      var n := |b| - 1;
      assert a + b == (a + b[..n]) + [b[n]];
      assert b == b[..n] + [b[n]];
      CountSnoc(a + b[..n], b[n]);
      CountSnoc(b[..n], b[n]);
      CountAppend(a, b[..n]);
    }
  }

  /** `lines[i][:2].strip() == "03"` holds exactly for the lines that start with `"03"`:
      stripping two characters leaves two only when neither is whitespace. */
  lemma FooterTest(line: string)
    ensures Strip(Slice(line, 0, 2)) == "03" <==> IsFooterLine(line)
  {
    if |line| >= 2 {
      assert Slice(line, 0, 2) == line[..2];
      if line[..2] == "03" {
        assert IsStripped(line[..2]);
      }
    } else {
      assert |Strip(Slice(line, 0, 2))| < 2;
    }
  }

  /** A footer line of `lines` stays the last footer when a non-footer line is
      inserted in front of it. */
  lemma InsertBeforeFooter(lines: seq<string>, f: nat, t: string)
    requires LastFooter(lines) == Some(f) && !IsFooterLine(t)
    ensures f + 1 < |lines| + 1
    ensures LastFooter(lines[..f] + [t] + lines[f..]) == Some(f + 1)
  {
    InsertIndices(lines, f, t);
    LastFooterAt(lines[..f] + [t] + lines[f..], f + 1);
  }

  /** Where the lines are after `t` is inserted at `f`. */
  lemma InsertIndices(lines: seq<string>, f: nat, t: string)
    requires f < |lines|
    ensures |lines[..f] + [t] + lines[f..]| == |lines| + 1
    ensures (lines[..f] + [t] + lines[f..])[f + 1] == lines[f]
    ensures forall j :: f + 1 < j <= |lines| ==> (lines[..f] + [t] + lines[f..])[j] == lines[j - 1]
  {
  }

  /** The line `add_transaction` inserts starts with `"02"`, so it is not a footer line. */
  lemma TransactionLineStart(counter: nat, cents: nat, currency: string)
    ensures StartsWith(TransactionLine(counter, cents, currency), "02")
    ensures !IsFooterLine(TransactionLine(counter, cents, currency))
  {
    FormatStartsWith(NewTransaction(counter, cents, currency), Transaction, LineEnd);
  }

  /** The `field_id` of a footer line parses as `"03"`. */
  lemma ParsedFooterId(line: string)
    requires IsFooterLine(line)
    ensures Get(Parse(line, Footer), "field_id") == "03"
  {
    ParseFieldId(line, Footer);
    FooterTest(line);
  }

  /** A footer record rewritten for a new count and sum is written as a footer line. */
  lemma UpdatedFooterStart(footer: Record, count: nat, sum: nat)
    requires Get(footer, "field_id") == "03"
    ensures IsFooterLine(UpdatedFooter(footer, count, sum))
  {
    assert Get(FooterRecord(footer, count, sum), "field_id") == "03";
    FormatStartsWith(FooterRecord(footer, count, sum), Footer, LineEnd);
  }

  /** The rewritten footer keeps the `"03"` of the footer line it was parsed from. */
  lemma FooterRewriteStart(line: string, count: nat, cents: nat)
    requires IsFooterLine(line) && FooterRewrite(line, count, cents).Ok?
    ensures IsFooterLine(FooterRewrite(line, count, cents).value)
  {
    var fd := Parse(line, Footer);
    ParsedFooterId(line);
    UpdatedFooterStart(fd, count, PyInt(Get(fd, "control_sum")).value + cents);
  }

  /** Replacing the line after an inserted one is inserting both in its place. */
  lemma SpliceUpdate(xs: seq<string>, f: nat, t: string, u: string)
    requires f < |xs|
    ensures (xs[..f] + [t] + xs[f..])[f + 1 := u] == xs[..f] + [t] + [u] + xs[f + 1..]
  {
    var ys := xs[..f] + [t] + xs[f..];
    assert ys[f + 1 := u][..f + 1] == xs[..f] + [t];
    assert ys[f + 1 := u][f + 2..] == xs[f + 1..];
  }

  /** Inserting a non-footer line `t` in front of the last footer at `f`: the lines
      before `f` are kept, `t` is at `f`, the rewritten footer follows it and the lines
      after it are kept; a footer that cannot be rewritten raises its error. */
  lemma InsertShape(lines: seq<string>, t: string, count: nat, cents: nat)
    requires !IsFooterLine(t) && LastFooter(lines).Some?
    ensures var f := LastFooter(lines).value;
      InsertBeforeLastFooter(lines, t, count, cents) ==
        match FooterRewrite(lines[f], count, cents)
        case Err(e) => Err(e)
        case Ok(u) => Ok(Some(lines[..f] + [t] + [u] + lines[f + 1..]))
  {
    var f := LastFooter(lines).value;
    var ins := lines[..f] + [t] + lines[f..];
    InsertBeforeFooter(lines, f, t);
    assert ins[f + 1] == lines[f];
    if FooterRewrite(lines[f], count, cents).Ok? {
      SpliceUpdate(lines, f, t, FooterRewrite(lines[f], count, cents).value);
    }
  }

  /** Inserting a transaction line in front of the last footer adds one line that starts
      with `"02"`; the rewritten footer still starts with `"03"`. */
  lemma InsertCount(lines: seq<string>, t: string, count: nat, cents: nat, out: seq<string>)
    requires StartsWith(t, "02")
    requires InsertBeforeLastFooter(lines, t, count, cents) == Ok(Some(out))
    ensures CountTransactionLines(out) == CountTransactionLines(lines) + 1
  {
    var f := LastFooter(lines).value;
    InsertedLines(lines, t, count, cents, out);
    FooterRewriteStart(lines[f], count, cents);
    SpliceCount(lines, f, t, FooterRewrite(lines[f], count, cents).value);
  }

  /** The lines written when a non-footer line is inserted. */
  lemma InsertedLines(lines: seq<string>, t: string, count: nat, cents: nat, out: seq<string>)
    requires StartsWith(t, "02")
    requires InsertBeforeLastFooter(lines, t, count, cents) == Ok(Some(out))
    ensures LastFooter(lines).Some?
    ensures FooterRewrite(lines[LastFooter(lines).value], count, cents).Ok?
    ensures var f := LastFooter(lines).value;
      out == lines[..f] + [t] + [FooterRewrite(lines[f], count, cents).value] + lines[f + 1..]
  {
    assert !IsFooterLine(t);
    InsertShape(lines, t, count, cents);
  }

  /** Counting over a splice: `t` in front of `u` in place of the footer line at `f`. */
  lemma SpliceCount(lines: seq<string>, f: nat, t: string, u: string)
    requires f < |lines| && IsFooterLine(lines[f])
    requires StartsWith(t, "02") && IsFooterLine(u)
    ensures CountTransactionLines(lines[..f] + [t] + [u] + lines[f + 1..]) == CountTransactionLines(lines) + 1
  {
    SpliceAround(lines, f);
    FooterNotTransaction(lines[f]);
    FooterNotTransaction(u);
    CountAround(lines[..f], lines[f], lines[f + 1..]);
    CountAround(lines[..f] + [t], u, lines[f + 1..]);
    CountSnoc(lines[..f], t);
  }

  /** A line is the lines before it, itself and the lines after it. */
  lemma SpliceAround(lines: seq<string>, f: nat)
    requires f < |lines|
    ensures lines == lines[..f] + [lines[f]] + lines[f + 1..]
  {
  }

  /** A footer line does not start with `"02"`. */
  lemma FooterNotTransaction(line: string)
    requires IsFooterLine(line)
    ensures !StartsWith(line, "02")
  {
    assert line[..2][1] == '3';
  }

  /** Counting around one line. */
  lemma CountAround(a: seq<string>, x: string, b: seq<string>)
    ensures CountTransactionLines(a + [x] + b) ==
      CountTransactionLines(a) + (if StartsWith(x, "02") then 1 else 0) + CountTransactionLines(b)
  {
    CountSnoc(a, x);
    CountAppend(a + [x], b);
  }

  /** `add_transaction` with the last footer at `f`: the lines before `f` are kept, the
      new transaction is inserted at `f`, the footer follows it with `total_count` set to
      the new counter and `control_sum` increased by the amount, and the lines after the
      footer are kept. */
  lemma AddedLinesShape(lines: seq<string>, counter: nat, cents: nat, currency: string)
    requires LastFooter(lines).Some?
    ensures var f := LastFooter(lines).value;
      AddedLines(lines, counter, cents, currency) ==
        match FooterRewrite(lines[f], counter + 1, cents)
        case Err(e) => Err(e)
        case Ok(u) => Ok(Some(lines[..f] + [TransactionLine(counter + 1, cents, currency)] + [u] + lines[f + 1..]))
  {
    var t := TransactionLine(counter + 1, cents, currency);
    assert AddedLines(lines, counter, cents, currency) == InsertBeforeLastFooter(lines, t, counter + 1, cents);
    TransactionLineStart(counter + 1, cents, currency);
    InsertShape(lines, t, counter + 1, cents);
  }

  /** `add_transaction` adds exactly one line that starts with `"02"`, so it keeps the
      counter equal to the number of transaction lines. */
  lemma AddedCount(lines: seq<string>, counter: nat, cents: nat, currency: string, out: seq<string>)
    requires AddedLines(lines, counter, cents, currency) == Ok(Some(out))
    ensures CountTransactionLines(out) == CountTransactionLines(lines) + 1
  {
    var t := TransactionLine(counter + 1, cents, currency);
    assert AddedLines(lines, counter, cents, currency) == InsertBeforeLastFooter(lines, t, counter + 1, cents);
    TransactionLineStart(counter + 1, cents, currency);
    InsertCount(lines, t, counter + 1, cents, out);
  }

  /** The values `add_transaction` builds fit their columns when the counter has at most
      six digits, the amount at most twelve and the currency at most three characters. */
  lemma NewTransactionFits(counter: nat, cents: nat, currency: string)
    requires counter < Pow10(6) && cents < Pow10(12) && |currency| <= 3
    ensures Fits(NewTransaction(counter, cents, currency), Fields(Transaction))
  {
    var d := NewTransaction(counter, cents, currency);
    NatToStringFits(counter, 6);
    NatToStringFits(cents, 12);
    forall f | f in Fields(Transaction) ensures |Get(d, f.name)| <= Width(f) {
      assert f == Fields(Transaction)[0] || f == Fields(Transaction)[1] || f == Fields(Transaction)[2] ||
        f == Fields(Transaction)[3] || f == Fields(Transaction)[4];
    }
  }

  /** The line `add_transaction` inserts reads back: it is a record-length line, and its
      counter, amount and currency parse to the numbers and the code it was built from. */
  lemma TransactionLineReadsBack(counter: nat, cents: nat, currency: string)
    requires counter < Pow10(6) && cents < Pow10(12) && |currency| <= 3 && IsStripped(currency)
    ensures |TransactionLine(counter, cents, currency)| == RecordLength
    ensures var p := Parse(TransactionLine(counter, cents, currency), Transaction);
      && Get(p, "counter") == ZFill(NatToString(counter), 6)
      && PyInt(Get(p, "counter")) == Some(counter)
      && PyInt(Get(p, "amount")) == Some(cents)
      && Get(p, "currency") == currency
  {
    var d := NewTransaction(counter, cents, currency);
    NewTransactionFits(counter, cents, currency);
    TransactionRecordReadsBack(d, counter, cents, currency);
  }

  /** A fitting TRANSACTION record holding a zero-filled counter and amount formats to a
      record-length line from which both numbers and the currency read back. */
  lemma TransactionRecordReadsBack(d: Record, counter: nat, cents: nat, currency: string)
    requires Fits(d, Fields(Transaction)) && IsStripped(currency)
    requires Get(d, "counter") == ZFill(NatToString(counter), 6)
    requires Get(d, "amount") == ZFill(NatToString(cents), 12)
    requires Get(d, "currency") == currency
    ensures |Format(d, Transaction) + LineEnd| == RecordLength
    ensures var p := Parse(Format(d, Transaction) + LineEnd, Transaction);
      && Get(p, "counter") == Get(d, "counter")
      && PyInt(Get(p, "counter")) == Some(counter)
      && PyInt(Get(p, "amount")) == Some(cents)
      && Get(p, "currency") == currency
  {
    FormattedLine(d, Transaction);
    ZFillNatDigits(counter, 6);
    ZFillNatDigits(cents, 12);
    TransactionFieldsRead(d);
    PyIntZFill(counter, 6);
    PyIntZFill(cents, 12);
  }

  /** The counter, amount and currency of a fitting TRANSACTION record read back from its
      formatted line; the amount zero-filled. */
  lemma TransactionFieldsRead(d: Record)
    requires Fits(d, Fields(Transaction))
    requires IsStripped(Get(d, "counter")) && IsStripped(Get(d, "amount")) && IsStripped(Get(d, "currency"))
    ensures var p := Parse(Format(d, Transaction), Transaction);
      && Get(p, "counter") == Get(d, "counter")
      && Get(p, "amount") == ZFill(Get(d, "amount"), 12)
      && Get(p, "currency") == Get(d, "currency")
  {
    FormatThenParse(d, Transaction);
    assert Field("counter", 2, 8) in Fields(Transaction);
    assert Field("amount", 8, 20) in Fields(Transaction);
    assert Field("currency", 20, 23) in Fields(Transaction);
  }

  /** The line `add_transaction` inserts passes `process_content`'s checks exactly when
      its currency is allowed: it is a record-length line without surrounding
      whitespace and it is classified as a TRANSACTION. */
  lemma TransactionLineProcessed(counter: nat, cents: nat, currency: string)
    requires counter < Pow10(6) && cents < Pow10(12) && |currency| <= 3 && IsStripped(currency)
    ensures var line := TransactionLine(counter, cents, currency);
      ProcessLine(line) ==
        if currency in AllowedCurrencies then Ok((Transaction, Parse(line, Transaction)))
        else Err(InvalidCurrency(currency))
  {
    TransactionLineReadsBack(counter, cents, currency);
    TransactionLineClean(counter, cents, currency);
  }

  /** The line `add_transaction` inserts is its own strip and is classified as a
      TRANSACTION. */
  lemma TransactionLineClean(counter: nat, cents: nat, currency: string)
    ensures var line := TransactionLine(counter, cents, currency);
      Strip(line) == line && GetRecordType(line) == Ok(Transaction)
  {
    TransactionLineStart(counter, cents, currency);
    EndsWithLineEnd(Format(NewTransaction(counter, cents, currency), Transaction));
    CleanTransactionText(TransactionLine(counter, cents, currency));
  }

  /** A line that starts with `"02"` and ends with a letter is its own strip and is
      classified as a TRANSACTION. */
  lemma CleanTransactionText(line: string)
    requires StartsWith(line, "02") && line[|line| - 1] == 'n'
    ensures Strip(line) == line && GetRecordType(line) == Ok(Transaction)
  {
    assert line[0] == '0';
    ClassifyDiscriminator(line, Transaction);
  }

  /** A formatted line ends with the `n` of the two characters `\n`. */
  lemma EndsWithLineEnd(x: string)
    ensures (x + LineEnd)[|x + LineEnd| - 1] == 'n'
  {
  }

  /** The footer record written for values that fit still fits. */
  lemma FooterRecordFits(footer: Record, count: nat, sum: nat)
    requires Fits(footer, Fields(Footer)) && count < Pow10(6) && sum < Pow10(12)
    ensures Fits(FooterRecord(footer, count, sum), Fields(Footer))
  {
    var d := FooterRecord(footer, count, sum);
    NatToStringFits(count, 6);
    NatToStringFits(sum, 12);
    forall f | f in Fields(Footer) ensures |Get(d, f.name)| <= Width(f) {
      if f.name != "total_count" && f.name != "control_sum" {
        assert Get(d, f.name) == Get(footer, f.name);
      }
    }
  }

  /** The footer record written for a footer without surrounding whitespace has none
      either. */
  lemma FooterRecordStripped(footer: Record, count: nat, sum: nat)
    requires forall f :: f in Fields(Footer) ==> IsStripped(Get(footer, f.name))
    ensures forall f :: f in Fields(Footer) ==> IsStripped(Get(FooterRecord(footer, count, sum), f.name))
  {
    var d := FooterRecord(footer, count, sum);
    ZFillNatDigits(count, 6);
    ZFillNatDigits(sum, 12);
    forall f | f in Fields(Footer) ensures IsStripped(Get(d, f.name)) {
      if f.name != "total_count" && f.name != "control_sum" {
        assert Get(d, f.name) == Get(footer, f.name);
      }
    }
  }

  /** The four fields of a fitting FOOTER record without surrounding whitespace read
      back from its formatted line. */
  lemma FooterFieldsRead(d: Record)
    requires Fits(d, Fields(Footer))
    requires forall f :: f in Fields(Footer) ==> IsStripped(Get(d, f.name))
    ensures var p := Parse(Format(d, Footer), Footer);
      && Get(p, "field_id") == Get(d, "field_id")
      && Get(p, "total_count") == Get(d, "total_count")
      && Get(p, "control_sum") == Get(d, "control_sum")
      && Get(p, "reserved") == Get(d, "reserved")
  {
    FormatThenParse(d, Footer);
    assert Field("field_id", 0, 2) in Fields(Footer);
    assert Field("total_count", 2, 8) in Fields(Footer);
    assert Field("control_sum", 8, 20) in Fields(Footer);
    assert Field("reserved", 20, 118) in Fields(Footer);
  }

  /** The footer line `update_footer` writes reads back: a record-length line whose
      total count and control sum are the numbers written, with the footer's
      `field_id` and `reserved` kept. */
  lemma UpdatedFooterReadsBack(footer: Record, count: nat, sum: nat)
    requires Fits(footer, Fields(Footer)) && forall f :: f in Fields(Footer) ==> IsStripped(Get(footer, f.name))
    requires count < Pow10(6) && sum < Pow10(12)
    ensures |UpdatedFooter(footer, count, sum)| == RecordLength
    ensures var p := Parse(UpdatedFooter(footer, count, sum), Footer);
      && PyInt(Get(p, "total_count")) == Some(count)
      && PyInt(Get(p, "control_sum")) == Some(sum)
      && Get(p, "field_id") == Get(footer, "field_id")
      && Get(p, "reserved") == Get(footer, "reserved")
  {
    var d := FooterRecord(footer, count, sum);
    FooterRecordFits(footer, count, sum);
    FooterRecordStripped(footer, count, sum);
    FormattedLine(d, Footer);
    FooterFieldsRead(d);
    PyIntZFill(count, 6);
    PyIntZFill(sum, 12);
  }

  /** A footer rewritten by `update_footer` carries the new total count and the old
      control sum increased by the amount, as long as both fit their columns; its
      `field_id` and `reserved` are those of the old footer. */
  lemma FooterRewriteReadsBack(line: string, count: nat, cents: nat)
    requires FooterRewrite(line, count, cents).Ok? && count < Pow10(6)
    requires PyInt(Get(Parse(line, Footer), "control_sum")).value + cents < Pow10(12)
    ensures |FooterRewrite(line, count, cents).value| == RecordLength
    ensures var old_ := Parse(line, Footer);
      var p := Parse(FooterRewrite(line, count, cents).value, Footer);
      && PyInt(Get(p, "total_count")) == Some(count)
      && PyInt(Get(p, "control_sum")) == Some(PyInt(Get(old_, "control_sum")).value + cents)
      && Get(p, "field_id") == Get(old_, "field_id")
      && Get(p, "reserved") == Get(old_, "reserved")
  {
    var footer := Parse(line, Footer);
    ParsedFits(line, Footer);
    UpdatedFooterReadsBack(footer, count, PyInt(Get(footer, "control_sum")).value + cents);
  }

  /** `process_content` succeeds exactly when every line passes its checks. */
  lemma {:induction false} ProcessAllSucceeds(content: seq<string>)
    ensures ProcessAll(content).error.None? <==> forall i :: 0 <= i < |content| ==> ProcessLine(content[i]).Ok?
    decreases |content|
  {
    if content != [] {
      var n := |content| - 1;
      ProcessAllSucceeds(content[..n]);
      SnocIndices(content);
    }
  }

  /** When every line passes its checks, `process_content` returns one record per
      line, in input order. */
  lemma {:induction false} ProcessAllRecords(content: seq<string>)
    requires forall i :: 0 <= i < |content| ==> ProcessLine(content[i]).Ok?
    ensures ProcessAll(content).error.None? && |ProcessAll(content).records| == |content|
    ensures forall i :: 0 <= i < |content| ==> ProcessAll(content).records[i] == ProcessLine(content[i]).value.1
    decreases |content|
  {
    if content != [] {
      var n := |content| - 1;
      var p := ProcessAll(content[..n]);
      SnocIndices(content);
      ProcessAllRecords(content[..n]);
      ProcessNextOk(p, content[n]);
      forall i | 0 <= i < |content| ensures ProcessAll(content).records[i] == ProcessLine(content[i]).value.1 {
        if i < n {
          assert p.records[i] == ProcessLine(content[i]).value.1;
        }
      }
    }
  }

  /** One succeeding line after no error appends its record and kind. */
  lemma ProcessNextOk(p: Processed, line: string)
    requires p.error.None? && ProcessLine(line).Ok?
    ensures ProcessNext(p, line) ==
      Processed(p.records + [ProcessLine(line).value.1], p.kinds + [ProcessLine(line).value.0], None)
  {
  }

  /** The first part of a non-empty sequence holds its elements at the same indices. */
  lemma SnocIndices(content: seq<string>)
    requires content != []
    ensures forall i :: 0 <= i < |content| - 1 ==> content[..|content| - 1][i] == content[i]
  {
  }

  /** The first line that fails decides `process_content`: its error is the one raised,
      and the records before it are the ones produced. */
  lemma ProcessAllFirstError(content: seq<string>, i: nat)
    requires i < |content| && ProcessLine(content[i]).Err?
    requires forall j :: 0 <= j < i ==> ProcessLine(content[j]).Ok?
    ensures ProcessAll(content).error == Some(ProcessLine(content[i]).error)
    ensures ProcessAll(content).records == ProcessAll(content[..i]).records
  {
    var p := ProcessAll(content[..i]);
    ProcessPrefixSucceeds(content, i);
    ProcessAllFails(content, i, p.records, p.kinds);
  }

  /** Lines that all pass their checks leave `process_content` without an error. */
  lemma ProcessPrefixSucceeds(content: seq<string>, i: nat)
    requires i <= |content| && forall j :: 0 <= j < i ==> ProcessLine(content[j]).Ok?
    ensures ProcessAll(content[..i]).error.None?
  {
    assert forall j :: 0 <= j < i ==> content[..i][j] == content[j];
    ProcessAllSucceeds(content[..i]);
  }

  /** The line `set_value` writes reads back: a record-length line in which the edited
      field holds the new value and every other field keeps its text; an `amount` is
      read back zero-filled to its width. */
  lemma EditedLineReadsBack(line: string, k: Kind, fieldName: string, value: string)
    requires IsStripped(value)
    requires forall f :: f in Fields(k) && f.name == fieldName ==> |value| <= Width(f)
    ensures |EditedLine(line, k, fieldName, value)| == RecordLength
    ensures forall f :: f in Fields(k) ==>
      var v := if f.name == fieldName then value else Get(Parse(line, k), f.name);
      f.name in Parse(EditedLine(line, k, fieldName, value), k) &&
      Parse(EditedLine(line, k, fieldName, value), k)[f.name] ==
        if f.name == "amount" then ZFill(v, Width(f)) else v
  {
    var d := Parse(line, k)[fieldName := value];
    EditedFits(line, k, fieldName, value);
    FormattedLine(d, k);
    assert Parse(EditedLine(line, k, fieldName, value), k) == Parse(Format(d, k), k);
    FormatThenParse(d, k);
  }

  /** A parsed record with one field replaced by a stripped value that fits still fits
      and has no surrounding whitespace in any field. */
  lemma EditedFits(line: string, k: Kind, fieldName: string, value: string)
    requires IsStripped(value)
    requires forall f :: f in Fields(k) && f.name == fieldName ==> |value| <= Width(f)
    ensures Fits(Parse(line, k)[fieldName := value], Fields(k))
    ensures forall f :: f in Fields(k) ==> IsStripped(Get(Parse(line, k)[fieldName := value], f.name))
  {
    ParsedFits(line, k);
  }

  /** The line `add_transaction` inserts for transaction `counter` is the one
      `set_value` selects for the counter text `str(m)` exactly when `m` is `counter`. */
  lemma TransactionLineMatches(counter: nat, cents: nat, currency: string, m: nat)
    requires counter < Pow10(6) && cents < Pow10(12) && |currency| <= 3 && IsStripped(currency)
    ensures LineMatches(TransactionLine(counter, cents, currency), Transaction, Some(NatToString(m))) <==> m == counter
  {
    TransactionLineReadsBack(counter, cents, currency);
    if LineMatches(TransactionLine(counter, cents, currency), Transaction, Some(NatToString(m))) {
      ZFillNatInjective(m, counter, 6);
    }
  }
}
