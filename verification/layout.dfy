/**
 * The layout registry shared by every iteration of the record code: the three record
 * kinds, their field-offset tables, the record width, the allowed currencies, the
 * errors the code raises and the classification of a line by its two-character prefix.
 */
module Layout {
  import opened Wrappers
  import opened PyStr

  datatype Kind = Header | Transaction | Footer

  /** A field descriptor: the field occupies the columns `[start, end)`. */
  datatype Field = Field(name: string, start: nat, end: nat)

  /** The exceptions the record code raises, one constructor per cause. */
  datatype Error =
    | InvalidRecordType(id: string)  // unknown two-character prefix
    | InvalidLineLength(length: nat) // stripped line is not RecordLength long
    | InvalidCurrency(code: string)  // currency outside AllowedCurrencies
    | InvalidInteger(text: string)   // int() of text that is not a whole number
    | InvalidDecimal(text: string)   // float() or Decimal() of text that is not a number
    | FooterNotFound                 // no line starts with the FOOTER prefix

  /** A parsed record: field name to text, as the code's dictionaries hold it. */
  type Record = map<string, string>

  /** `data.get(name, "")`. */
  function Get(data: Record, name: string): string
  {
    if name in data then data[name] else ""
  }

  const RecordLength: nat := 120
  /** Where the last field of every kind ends. */
  const FieldsEnd: nat := 118
  /** The two characters backslash and `n` that the code appends to every line it
      formats (a literal, not a line break). */
  const LineEnd: string := "\\n"
  const AllowedCurrencies: seq<string> := ["USD", "EUR", "GBP"]

  /** The record-type name used as a dictionary key and as the `"type"` entry. */
  function KindName(k: Kind): string
  {
    match k
    case Header => "HEADER"
    case Transaction => "TRANSACTION"
    case Footer => "FOOTER"
  }

  /** The `field_id` prefix that marks a line of each kind. */
  function Discriminator(k: Kind): string
  {
    match k
    case Header => "01"
    case Transaction => "02"
    case Footer => "03"
  }

  function Width(f: Field): nat
  {
    if f.start <= f.end then f.end - f.start else 0
  }

  /** The fields cover the columns `[0, hi)` exactly: in order, non-empty, each
      starting where the previous one ends. */
  predicate Tiles(fs: seq<Field>, hi: nat)
  {
    && |fs| > 0
    && fs[0].start == 0
    && fs[|fs| - 1].end == hi
    && (forall i :: 0 <= i < |fs| ==> fs[i].start < fs[i].end)
    && (forall i :: 0 <= i < |fs| - 1 ==> fs[i].end == fs[i + 1].start)
  }

  /** The fields of a tiling but the last tile the columns up to where the last begins. */
  lemma TilesInit(fs: seq<Field>, hi: nat)
    requires Tiles(fs, hi) && |fs| > 1
    ensures Tiles(fs[..|fs| - 1], fs[|fs| - 1].start)
  {
  }

  /** Every field of a tiling lies inside the tiled columns. */
  lemma {:induction false} TilesBounds(fs: seq<Field>, hi: nat)
    requires Tiles(fs, hi)
    ensures 0 < hi
    ensures forall f :: f in fs ==> f.start < f.end <= hi
    decreases |fs|
  {
    var n := |fs| - 1;
    if n > 0 {
      var init := fs[..n];
      TilesInit(fs, hi);
      TilesBounds(init, fs[n].start);
      assert fs == init + [fs[n]];
    }
  }

  /** A field of a table other than its last one is a field of the first part. */
  lemma InInit(fs: seq<Field>, f: Field)
    requires f in fs && f != fs[|fs| - 1]
    ensures f in fs[..|fs| - 1]
  {
    assert fs == fs[..|fs| - 1] + [fs[|fs| - 1]];
  }

  predicate DistinctNames(fs: seq<Field>)
  {
    forall i, j :: 0 <= i < j < |fs| ==> fs[i].name != fs[j].name
  }

  /** Distinct names stay distinct in the first part of a table, and none of them is
      the name of the last field. */
  lemma DistinctInit(fs: seq<Field>)
    requires DistinctNames(fs) && |fs| > 0
    ensures DistinctNames(fs[..|fs| - 1])
    ensures forall f :: f in fs[..|fs| - 1] ==> f.name != fs[|fs| - 1].name
  {
    var n := |fs| - 1;
    forall f | f in fs[..n] ensures f.name != fs[n].name {
      var j :| 0 <= j < n && fs[..n][j] == f;
      assert fs[j] == f;
    }
  }

  /** The names of the fields of a table. */
  function Names(fs: seq<Field>): (r: set<string>)
    ensures forall f :: f in fs ==> f.name in r
    ensures forall name :: name in r ==> exists f :: f in fs && f.name == name
  {
    if fs == [] then {} else
      var n := |fs| - 1;
      assert fs[n] in fs;
      Names(fs[..n]) + {fs[n].name}
  }

  /** The field-offset table of each record kind, in declaration order. */
  function Fields(k: Kind): (fs: seq<Field>)
    ensures |fs| > 0 && fs[0] == Field("field_id", 0, 2)
    ensures fs[|fs| - 1].end == FieldsEnd
  {
    match k
    case Header =>
      [Field("field_id", 0, 2), Field("name", 2, 30), Field("surname", 30, 60),
       Field("patronymic", 60, 90), Field("address", 90, 118)]
    case Transaction =>
      [Field("field_id", 0, 2), Field("counter", 2, 8), Field("amount", 8, 20),
       Field("currency", 20, 23), Field("reserved", 23, 118)]
    case Footer =>
      [Field("field_id", 0, 2), Field("total_count", 2, 8), Field("control_sum", 8, 20),
       Field("reserved", 20, 118)]
  }

  /** Every table tiles the columns before the line end, its names are distinct, and
      none of them is `type`. */
  lemma FieldsLayout(k: Kind)
    ensures Tiles(Fields(k), FieldsEnd)
    ensures DistinctNames(Fields(k))
    ensures forall f :: f in Fields(k) ==> f.name != "type"
  {
  }

  /** The set of field names of a kind. */
  function FieldNames(k: Kind): set<string>
  {
    Names(Fields(k))
  }

  /** Classification by the first two characters: `"01"`, `"02"` and `"03"` name
      HEADER, TRANSACTION and FOOTER; every other prefix raises. */
  function GetRecordType(line: string): (r: Result<Kind, Error>)
    ensures r.Ok? ==> Discriminator(r.value) == Slice(line, 0, 2)
    ensures r.Err? ==> r.error == InvalidRecordType(Slice(line, 0, 2))
    ensures r.Err? <==> forall k :: Discriminator(k) != Slice(line, 0, 2)
  {
    var id := Slice(line, 0, 2);
    if id == "01" then Ok(Header)
    else if id == "02" then Ok(Transaction)
    else if id == "03" then Ok(Footer)
    else Err(InvalidRecordType(id))
  }

  /** A line whose prefix is the discriminator of `k` is classified as `k`. */
  lemma {:induction false} ClassifyDiscriminator(line: string, k: Kind)
    requires |line| >= 2 && line[..2] == Discriminator(k)
    ensures GetRecordType(line) == Ok(k)
  {
    assert Slice(line, 0, 2) == line[..2];
  }

  /** The currency check both iterations run on a parsed TRANSACTION: its `currency`
      must be one of the allowed codes; other kinds are not checked. */
  function ValidateData(data: Record, k: Kind): Result<(), Error>
  {
    if k == Transaction && Get(data, "currency") !in AllowedCurrencies then Err(InvalidCurrency(Get(data, "currency")))
    else Ok(())
  }
}
