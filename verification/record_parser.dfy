/**
 * The record codec of `RecordParser`: a line is cut into the fields of its kind's
 * table and each slice is stripped; a record dictionary is written back by padding each
 * field to its width (`amount` with leading zeros, everything else with trailing
 * spaces) and concatenating the fields in table order.
 *
 * `Parse` and `Format` are the specifications; the methods `ParseLine` and
 * `FormatLine` are the loops of the source, proved equal to them.
 */
module RecordParser {
  import opened Wrappers
  import opened PyStr
  import opened Layout

  /** One field as written: `amount` zero-filled, every other field space-padded,
      neither truncated. */
  function Encode(data: Record, f: Field): string
  {
    var v := Get(data, f.name);
    if f.name == "amount" then ZFill(v, Width(f)) else LJust(v, Width(f))
  }

  /** The fields written one after another, in table order. */
  function FormatFields(data: Record, fs: seq<Field>): string
  {
    if fs == [] then [] else FormatFields(data, fs[..|fs| - 1]) + Encode(data, fs[|fs| - 1])
  }

  /** The line `format_line(data, k)` builds. */
  function Format(data: Record, k: Kind): string
  {
    FormatFields(data, Fields(k))
  }

  /** The text of one field of a line: its columns with surrounding whitespace removed. */
  function FieldText(line: string, f: Field): string
  {
    Strip(Slice(line, f.start, f.end))
  }

  /** `acc` with every field of `fs` stored in table order. */
  function ParseFields(acc: Record, line: string, fs: seq<Field>): Record
  {
    if fs == [] then acc
    else
      var f := fs[|fs| - 1];
      ParseFields(acc, line, fs[..|fs| - 1])[f.name := FieldText(line, f)]
  }

  /** The dictionary `parse_line(line, k)` builds. */
  function Parse(line: string, k: Kind): Record
  {
    ParseFields(map["type" := KindName(k)], line, Fields(k))
  }

  /** Every value fits its field's width. */
  predicate Fits(data: Record, fs: seq<Field>)
  {
    forall f :: f in fs ==> |Get(data, f.name)| <= Width(f)
  }

  /** One more field of the table is one more step of the parsing fold. */
  lemma ParseFieldsStep(acc: Record, line: string, fs: seq<Field>, i: nat)
    requires i < |fs|
    ensures ParseFields(acc, line, fs[..i + 1]) == ParseFields(acc, line, fs[..i])[fs[i].name := FieldText(line, fs[i])]
  {
    assert fs[..i + 1][..i] == fs[..i];
  }

  /** One more field of the table is one more piece of the formatted line. */
  lemma FormatFieldsStep(data: Record, fs: seq<Field>, i: nat)
    requires i < |fs|
    ensures FormatFields(data, fs[..i + 1]) == FormatFields(data, fs[..i]) + Encode(data, fs[i])
  {
    assert fs[..i + 1][..i] == fs[..i];
  }

  /** `parse_line`: the loop over the field table. */
  method ParseLine(line: string, k: Kind) returns (data: Record)
    ensures data == Parse(line, k)
  {
    var fs := Fields(k);
    data := map["type" := KindName(k)];
    for i := 0 to |fs|
      invariant data == ParseFields(map["type" := KindName(k)], line, fs[..i])
    {
      var f := fs[i];
      var value := Strip(Slice(line, f.start, f.end));
      ParseFieldsStep(map["type" := KindName(k)], line, fs, i);
      data := data[f.name := value];
    }
    assert fs[..|fs|] == fs;
  }

  /** `format_line`: the loop that appends one padded field at a time. */
  method FormatLine(data: Record, k: Kind) returns (line: string)
    ensures line == Format(data, k)
  {
    var fs := Fields(k);
    line := "";
    for i := 0 to |fs|
      invariant line == FormatFields(data, fs[..i])
    {
      var f := fs[i];
      var value := Get(data, f.name);
      var fieldLength := Width(f);
      var formatted := if f.name == "amount" then ZFill(value, fieldLength) else LJust(value, fieldLength);
      FormatFieldsStep(data, fs, i);
      line := line + formatted;
    }
    assert fs[..|fs|] == fs;
  }

  /** Every field of a table with distinct names holds its stripped slice. */
  lemma {:induction false} ParseFieldsValues(acc: Record, line: string, fs: seq<Field>)
    requires DistinctNames(fs)
    ensures forall f :: f in fs ==>
      f.name in ParseFields(acc, line, fs) && ParseFields(acc, line, fs)[f.name] == FieldText(line, f)
  {
    if fs != [] {
      var n := |fs| - 1;
      var init := fs[..n];
      var last := fs[n];
      ParseFieldsStep(acc, line, fs, n);
      assert fs[..n + 1] == fs;
      DistinctInit(fs);
      ParseFieldsValues(acc, line, init);
      assert fs == init + [last];
    }
  }

  /** The keys of the parse are the starting keys and the table's names. */
  lemma {:induction false} ParseFieldsKeys(acc: Record, line: string, fs: seq<Field>)
    ensures ParseFields(acc, line, fs).Keys == acc.Keys + Names(fs)
  {
    if fs != [] {
      var n := |fs| - 1;
      ParseFieldsStep(acc, line, fs, n);
      assert fs[..n + 1] == fs;
      ParseFieldsKeys(acc, line, fs[..n]);
    }
  }

  /** A starting key that no field of the table names keeps its value. */
  lemma {:induction false} ParseFieldsKeeps(acc: Record, line: string, fs: seq<Field>, key: string)
    requires key in acc && forall f :: f in fs ==> f.name != key
    ensures key in ParseFields(acc, line, fs) && ParseFields(acc, line, fs)[key] == acc[key]
  {
    if fs != [] {
      var n := |fs| - 1;
      ParseFieldsStep(acc, line, fs, n);
      assert fs[..n + 1] == fs;
      assert fs[n] in fs;
      ParseFieldsKeeps(acc, line, fs[..n], key);
    }
  }

  /** The parse of a table whose names are distinct and new to `acc`: the starting
      entries, plus every field's stripped slice, and nothing else. */
  lemma ParseFieldsContents(acc: Record, line: string, fs: seq<Field>)
    requires DistinctNames(fs) && forall f :: f in fs ==> f.name !in acc
    ensures ParseFields(acc, line, fs).Keys == acc.Keys + Names(fs)
    ensures forall key :: key in acc ==> key in ParseFields(acc, line, fs) && ParseFields(acc, line, fs)[key] == acc[key]
    ensures forall f :: f in fs ==>
      f.name in ParseFields(acc, line, fs) && ParseFields(acc, line, fs)[f.name] == FieldText(line, f)
  {
    ParseFieldsKeys(acc, line, fs);
    ParseFieldsValues(acc, line, fs);
    forall key | key in acc
      ensures key in ParseFields(acc, line, fs) && ParseFields(acc, line, fs)[key] == acc[key]
    {
      ParseFieldsKeeps(acc, line, fs, key);
    }
  }

  /** `parse_line` returns the record type under `"type"` and, for every field of the
      table, the slice `line[start:end]` with surrounding whitespace removed; it has no
      other keys. */
  lemma ParseLineFields(line: string, k: Kind)
    ensures Parse(line, k).Keys == {"type"} + FieldNames(k)
    ensures "type" in Parse(line, k) && Parse(line, k)["type"] == KindName(k)
    ensures forall f :: f in Fields(k) ==>
      f.name in Parse(line, k) && Parse(line, k)[f.name] == FieldText(line, f)
  {
    var acc := map["type" := KindName(k)];
    assert acc.Keys == {"type"};
    FieldsLayout(k);
    ParseFieldsContents(acc, line, Fields(k));
  }

  /** `line[..b]` is `line[..a]` followed by `line[a..b]`. */
  lemma PrefixSplit(line: string, a: nat, b: nat)
    requires a <= b <= |line|
    ensures line[..b] == line[..a] + line[a..b]
  {
  }

  /** A slice inside the left part of a concatenation. */
  lemma ColumnOfHead(head: string, e: string, a: nat, b: nat, v: string)
    requires a <= b <= |head| && head[a..b] == v
    ensures (head + e)[a..b] == v
  {
    assert (head + e)[a..b] == head[a..b];
  }

  /** The right part of a concatenation is the slice after the left part. */
  lemma ColumnOfLast(head: string, e: string)
    ensures (head + e)[|head|..|head| + |e|] == e
  {
  }

  /** The values that fit the fields of a table fit the fields of its first part. */
  lemma FitsInit(data: Record, fs: seq<Field>, n: nat)
    requires Fits(data, fs) && n <= |fs|
    ensures Fits(data, fs[..n])
  {
    forall g | g in fs[..n] ensures |Get(data, g.name)| <= Width(g) {
      var j :| 0 <= j < n && fs[..n][j] == g;
      assert fs[j] == g;
    }
  }

  /** The values fit a table exactly when they fit its first part and its last field. */
  lemma FitsSplit(data: Record, fs: seq<Field>)
    requires fs != []
    ensures Fits(data, fs) <==>
      Fits(data, fs[..|fs| - 1]) && |Get(data, fs[|fs| - 1].name)| <= Width(fs[|fs| - 1])
  {
    var n := |fs| - 1;
    assert fs[n] in fs;
    if Fits(data, fs) {
      FitsInit(data, fs, n);
    }
    if Fits(data, fs[..n]) && |Get(data, fs[n].name)| <= Width(fs[n]) {
      forall f | f in fs ensures |Get(data, f.name)| <= Width(f) {
        if f != fs[n] {
          InInit(fs, f);
        }
      }
    }
  }

  /** The fields of a tiling are written back to back: each lands in its own columns,
      and the line is exactly as long as the tiled columns when every value fits. */
  lemma {:induction false} FormatFieldsLayout(data: Record, fs: seq<Field>, hi: nat)
    requires Tiles(fs, hi) && Fits(data, fs)
    ensures |FormatFields(data, fs)| == hi
    ensures forall f :: f in fs ==>
      f.start <= f.end <= hi && FormatFields(data, fs)[f.start..f.end] == Encode(data, f)
    decreases |fs|
  {
    var n := |fs| - 1;
    var init := fs[..n];
    var head := FormatFields(data, init);
    FormatFieldsLast(data, fs);
    assert |Encode(data, fs[n])| == Width(fs[n]) by {
      assert fs[n] in fs;
    }
    if n > 0 {
      TilesInit(fs, hi);
      FitsInit(data, fs, n);
      FormatFieldsLayout(data, init, fs[n].start);
    } else {
      assert init == [];
    }
    LayoutColumns(data, fs, hi, head);
  }

  /** The last field is written after all the others. */
  lemma FormatFieldsLast(data: Record, fs: seq<Field>)
    requires fs != []
    ensures FormatFields(data, fs) == FormatFields(data, fs[..|fs| - 1]) + Encode(data, fs[|fs| - 1])
  {
  }

  /** The columns of a line made of the first fields' text `head` and the last field's
      encoding, given where the first fields landed in `head`. */
  lemma LayoutColumns(data: Record, fs: seq<Field>, hi: nat, head: string)
    requires Tiles(fs, hi) && |Encode(data, fs[|fs| - 1])| == Width(fs[|fs| - 1])
    requires |head| == fs[|fs| - 1].start
    requires forall f :: f in fs[..|fs| - 1] ==>
      f.start <= f.end <= |head| && head[f.start..f.end] == Encode(data, f)
    ensures |head + Encode(data, fs[|fs| - 1])| == hi
    ensures forall f :: f in fs ==>
      f.start <= f.end <= hi && (head + Encode(data, fs[|fs| - 1]))[f.start..f.end] == Encode(data, f)
  {
    var n := |fs| - 1;
    var e := Encode(data, fs[n]);
    TilesBounds(fs, hi);
    forall f | f in fs
      ensures f.start <= f.end <= hi && (head + e)[f.start..f.end] == Encode(data, f)
    {
      if f == fs[n] {
        ColumnOfLast(head, e);
      } else {
        InInit(fs, f);
        ColumnOfHead(head, e, f.start, f.end, Encode(data, f));
      }
    }
  }

  /** The line grows by the whole of every value that does not fit: it is never
      shorter than the tiled columns and is exactly as long only when every value fits. */
  lemma {:induction false} FormatFieldsLength(data: Record, fs: seq<Field>, hi: nat)
    requires Tiles(fs, hi)
    ensures |FormatFields(data, fs)| >= hi
    ensures |FormatFields(data, fs)| == hi <==> Fits(data, fs)
    decreases |fs|
  {
    var n := |fs| - 1;
    var init := fs[..n];
    var last := fs[n];
    var e := Encode(data, last);
    FormatFieldsStep(data, fs, n);
    assert fs[..n + 1] == fs;
    assert |e| >= Width(last) && (|e| == Width(last) <==> |Get(data, last.name)| <= Width(last));
    FitsSplit(data, fs);
    if n > 0 {
      TilesInit(fs, hi);
      FormatFieldsLength(data, init, last.start);
    }
  }

  /** `format_line` output is 118 characters long exactly when every value fits its
      field; a longer value is kept whole and lengthens the line. */
  lemma FormatLength(data: Record, k: Kind)
    ensures |Format(data, k)| >= FieldsEnd
    ensures |Format(data, k)| == FieldsEnd <==> Fits(data, Fields(k))
  {
    FormatFieldsLength(data, Fields(k), FieldsEnd);
  }

  /** When every value fits, each field occupies exactly its columns `[start, end)`:
      `amount` zero-filled on the left, every other field space-padded on the right,
      and a missing key written as zeros (`amount`) or spaces. */
  lemma FormatColumns(data: Record, k: Kind)
    requires Fits(data, Fields(k))
    ensures |Format(data, k)| == FieldsEnd
    ensures forall f :: f in Fields(k) ==>
      (f.start <= f.end <= FieldsEnd &&
       Format(data, k)[f.start..f.end] ==
         (if f.name == "amount" then ZFill(Get(data, f.name), Width(f)) else LJust(Get(data, f.name), Width(f))))
    ensures forall f :: f in Fields(k) && f.name !in data ==>
      (f.start <= f.end <= FieldsEnd &&
       Format(data, k)[f.start..f.end] == (if f.name == "amount" then Zeros(Width(f)) else Spaces(Width(f))))
  {
    FieldsLayout(k);
    FormatFieldsLayout(data, Fields(k), FieldsEnd);
  }

  /** Records that encode every field of a table alike format alike. */
  lemma {:induction false} FormatFieldsAgree(d1: Record, d2: Record, fs: seq<Field>)
    requires forall f :: f in fs ==> Encode(d1, f) == Encode(d2, f)
    ensures FormatFields(d1, fs) == FormatFields(d2, fs)
  {
    if fs != [] {
      assert fs[|fs| - 1] in fs;
      FormatFieldsAgree(d1, d2, fs[..|fs| - 1]);
    }
  }

  /** Only the table's fields are written: keys outside the table (such as `"type"`)
      are ignored, and a missing key reads as the empty text. */
  lemma FormatIgnoresOtherKeys(d1: Record, d2: Record, k: Kind)
    requires forall f :: f in Fields(k) ==> Get(d1, f.name) == Get(d2, f.name)
    ensures Format(d1, k) == Format(d2, k)
  {
    FormatFieldsAgree(d1, d2, Fields(k));
  }

  /** Zero-filling stripped text keeps it stripped. */
  lemma ZFillStripped(v: string, w: nat)
    requires IsStripped(v)
    ensures IsStripped(ZFill(v, w))
  {
    var z := ZFill(v, w);
    if |v| < w {
      ZFillShape(v, w);
      assert z[0] == '0' || z[0] == v[0];
      assert z[|z| - 1] == '0' || z[|z| - 1] == v[|v| - 1];
    }
  }

  /** A stripped value that fits its field strips back out of its encoding. */
  lemma StripEncode(data: Record, f: Field)
    requires IsStripped(Get(data, f.name)) && |Get(data, f.name)| <= Width(f)
    ensures Strip(Encode(data, f)) ==
      if f.name == "amount" then ZFill(Get(data, f.name), Width(f)) else Get(data, f.name)
  {
    var v := Get(data, f.name);
    if f.name == "amount" {
      ZFillStripped(v, Width(f));
    } else {
      assert LJust(v, Width(f)) == v + Spaces(Width(f) - |v|);
      StripPadded(v, Width(f) - |v|);
    }
  }

  /** Round trip format-then-parse: when every value fits, parsing the formatted line
      gives back each value that carries no surrounding whitespace, with `amount`
      zero-filled to its width. */
  lemma FormatThenParse(data: Record, k: Kind)
    requires Fits(data, Fields(k))
    ensures forall f :: f in Fields(k) && IsStripped(Get(data, f.name)) ==>
      f.name in Parse(Format(data, k), k) &&
      Parse(Format(data, k), k)[f.name] ==
        if f.name == "amount" then ZFill(Get(data, f.name), Width(f)) else Get(data, f.name)
  {
    var line := Format(data, k);
    FormatColumns(data, k);
    ParseLineFields(line, k);
    forall f | f in Fields(k) && IsStripped(Get(data, f.name))
      ensures FieldText(line, f) ==
        if f.name == "amount" then ZFill(Get(data, f.name), Width(f)) else Get(data, f.name)
    {
      assert Slice(line, f.start, f.end) == Encode(data, f);
      StripEncode(data, f);
    }
  }

  /** `s.rstrip(" ")`: the prefix left after cutting trailing spaces. */
  function TrimSpaces(s: string): (r: string)
    ensures |r| <= |s| && r == s[..|r|]
    ensures forall i :: |r| <= i < |s| ==> s[i] == ' '
    ensures r == [] || r[|r| - 1] != ' '
  {
    if s != [] && s[|s| - 1] == ' ' then TrimSpaces(s[..|s| - 1]) else s
  }

  /** A column range as `format_line` writes a text field: stripped text followed by
      space padding. */
  predicate IsPadded(s: string)
  {
    IsStripped(TrimSpaces(s))
  }

  /** A padded text field is rebuilt exactly by strip-then-ljust. */
  lemma PaddedRoundTrip(s: string)
    requires IsPadded(s)
    ensures LJust(Strip(s), |s|) == s
  {
    var t := TrimSpaces(s);
    var k := |s| - |t|;
    assert s == t + Spaces(k);
    assert Strip(s) == t by {
      StripPadded(t, k);
    }
    assert LJust(t, |s|) == s by {
      if k > 0 {
        assert LJust(t, |s|) == t + Spaces(k);
      }
    }
  }

  /** Fields that each reproduce their columns of `line` reproduce the whole tiled prefix. */
  lemma {:induction false} FormatFieldsMatches(d: Record, line: string, fs: seq<Field>, hi: nat)
    requires Tiles(fs, hi) && hi <= |line|
    requires forall f :: f in fs ==> Encode(d, f) == Slice(line, f.start, f.end)
    ensures FormatFields(d, fs) == line[..hi]
    decreases |fs|
  {
    var n := |fs| - 1;
    var init := fs[..n];
    var last := fs[n];
    TilesBounds(fs, hi);
    FormatFieldsStep(d, fs, n);
    assert fs[..n + 1] == fs;
    assert last in fs;
    assert Encode(d, last) == line[last.start..hi];
    if n > 0 {
      TilesInit(fs, hi);
      FormatFieldsMatches(d, line, init, last.start);
    }
    PrefixSplit(line, last.start, hi);
  }

  /** A field's stripped slice re-encodes to the slice itself when the slice is what
      `format_line` writes: zero-filled `amount` text without surrounding whitespace, or
      stripped text followed by spaces. */
  lemma EncodeFieldText(line: string, f: Field, d: Record)
    requires f.start < f.end <= |line|
    requires f.name in d && d[f.name] == FieldText(line, f)
    requires if f.name == "amount" then IsStripped(line[f.start..f.end]) else IsPadded(line[f.start..f.end])
    ensures Encode(d, f) == Slice(line, f.start, f.end)
  {
    var s := line[f.start..f.end];
    assert Slice(line, f.start, f.end) == s;
    if f.name != "amount" {
      PaddedRoundTrip(s);
    }
  }

  /** Round trip parse-then-format: a line whose text fields are stripped text plus
      space padding and whose `amount` columns carry no surrounding whitespace is
      reproduced up to column 118; the two columns after the last field are dropped. */
  lemma ParseThenFormat(line: string, k: Kind)
    requires |line| >= FieldsEnd
    requires forall f :: f in Fields(k) ==>
      if f.name == "amount" then IsStripped(Slice(line, f.start, f.end)) else IsPadded(Slice(line, f.start, f.end))
    ensures Format(Parse(line, k), k) == line[..FieldsEnd]
  {
    var fs := Fields(k);
    var d := Parse(line, k);
    ParseLineFields(line, k);
    FieldsLayout(k);
    TilesBounds(fs, FieldsEnd);
    forall f | f in fs ensures Encode(d, f) == Slice(line, f.start, f.end) {
      assert Slice(line, f.start, f.end) == line[f.start..f.end];
      EncodeFieldText(line, f, d);
    }
    FormatFieldsMatches(d, line, fs, FieldsEnd);
  }

  lemma {:induction false} ParseFieldsAgree(acc: Record, l1: string, l2: string, fs: seq<Field>)
    requires forall f :: f in fs ==> FieldText(l1, f) == FieldText(l2, f)
    ensures ParseFields(acc, l1, fs) == ParseFields(acc, l2, fs)
  {
    if fs != [] {
      var n := |fs| - 1;
      assert fs[n] in fs;
      InitFields(fs);
      ParseFieldsAgree(acc, l1, l2, fs[..n]);
    }
  }

  /** The fields of the first part of a table are fields of the table. */
  lemma InitFields(fs: seq<Field>)
    requires fs != []
    ensures forall f :: f in fs[..|fs| - 1] ==> f in fs
  {
  }

  /** Parsing reads nothing past the last field: columns from 118 on, such as the two
      characters the newer iteration appends, do not change the parse. */
  lemma ParseIgnoresTail(line: string, tail: string, k: Kind)
    requires |line| >= FieldsEnd
    ensures Parse(line + tail, k) == Parse(line, k)
  {
    FieldsLayout(k);
    TilesBounds(Fields(k), FieldsEnd);
    forall f | f in Fields(k) ensures FieldText(line + tail, f) == FieldText(line, f) {
      SliceOfExtended(line, tail, f.start, f.end);
    }
    ParseFieldsAgree(map["type" := KindName(k)], line + tail, line, Fields(k));
  }

  /** Columns inside a line read the same after text is appended to it. */
  lemma SliceOfExtended(line: string, tail: string, i: nat, j: nat)
    requires i <= j <= |line|
    ensures Slice(line + tail, i, j) == Slice(line, i, j)
  {
    assert (line + tail)[i..j] == line[i..j];
  }

  /** Every parsed value fits its field and carries no surrounding whitespace, so a
      parsed record always satisfies the format-then-parse round trip's conditions. */
  lemma ParsedFits(line: string, k: Kind)
    ensures Fits(Parse(line, k), Fields(k))
    ensures forall f :: f in Fields(k) ==> IsStripped(Get(Parse(line, k), f.name))
  {
    var d := Parse(line, k);
    ParseLineFields(line, k);
    FieldsLayout(k);
    TilesBounds(Fields(k), FieldsEnd);
    forall f | f in Fields(k)
      ensures |Get(d, f.name)| <= Width(f) && IsStripped(Get(d, f.name))
    {
      FieldTextFits(line, f);
    }
  }

  /** A field's text is never wider than the field. */
  lemma FieldTextFits(line: string, f: Field)
    requires f.start <= f.end
    ensures |FieldText(line, f)| <= Width(f) && IsStripped(FieldText(line, f))
  {
    assert |Slice(line, f.start, f.end)| <= f.end - f.start;
  }

  lemma {:induction false} FormatFieldsHead(data: Record, fs: seq<Field>)
    requires fs != []
    ensures |FormatFields(data, fs)| >= |Encode(data, fs[0])|
    ensures FormatFields(data, fs)[..|Encode(data, fs[0])|] == Encode(data, fs[0])
  {
    var n := |fs| - 1;
    if n == 0 {
      assert FormatFields(data, fs[..0]) == [];
    } else {
      var init := fs[..n];
      assert init[0] == fs[0];
      FormatFieldsHead(data, init);
    }
  }

  /** Every line starts with its `field_id`, space-padded to two columns. */
  lemma FormatFieldId(data: Record, k: Kind)
    ensures |Format(data, k)| >= Max(|Get(data, "field_id")|, 2)
    ensures Format(data, k)[..Max(|Get(data, "field_id")|, 2)] == LJust(Get(data, "field_id"), 2)
  {
    FormatFieldsHead(data, Fields(k));
  }

  /** A record whose `field_id` has two characters is written starting with them,
      whatever follows the formatted line. */
  lemma FormatStartsWith(data: Record, k: Kind, tail: string)
    requires |Get(data, "field_id")| == 2
    ensures StartsWith(Format(data, k) + tail, Get(data, "field_id"))
  {
    FormatFieldId(data, k);
    var x := Format(data, k);
    assert (x + tail)[..2] == x[..2];
  }

  /** The `field_id` of a parsed line is its first two columns, stripped. */
  lemma ParseFieldId(line: string, k: Kind)
    ensures Get(Parse(line, k), "field_id") == Strip(Slice(line, 0, 2))
  {
    ParseLineFields(line, k);
    assert Fields(k)[0] in Fields(k);
  }

  /** A record whose values fit is written, with the two characters `\n` after it, as a
      line of exactly the record length, and the two characters do not reach any field. */
  lemma FormattedLine(data: Record, k: Kind)
    requires Fits(data, Fields(k))
    ensures |Format(data, k) + LineEnd| == RecordLength
    ensures Parse(Format(data, k) + LineEnd, k) == Parse(Format(data, k), k)
  {
    FormatLength(data, k);
    ParseIgnoresTail(Format(data, k), LineEnd, k);
  }
}
