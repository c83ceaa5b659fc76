/**
 * Manifest loading of `multidownloader/batch.py`: the format choice of
 * `load_manifest`, `normalize_url`, and the generators `_from_csv` and
 * `_from_json` over already parsed input (CSV rows as dictionaries, the
 * JSON document as a `Json` value).
 */
module Manifest {
  import opened Wrappers
  import opened Text
  import opened Values

  /** One URL to fetch, with the source name the manifest gave it. */
  datatype ManifestItem = ManifestItem(sourceHint: string, url: string)

  /** `normalize_url`: surrounding whitespace removed. */
  function NormalizeUrl(url: string): (r: string)
    ensures r == [] || (!IsSpace(r[0]) && !IsSpace(r[|r| - 1]))
    ensures exists k :: OccursAt(url, r, k) && AllSpace(url[..k]) && AllSpace(url[k + |r|..])
  {
    StripAround(url);
    Strip(url)
  }

  /** Normalizing twice is normalizing once. */
  lemma NormalizeIdempotent(url: string)
    ensures NormalizeUrl(NormalizeUrl(url)) == NormalizeUrl(url)
  {
    TrimIdempotent(url, IsSpace);
  }

  datatype Format = JsonFormat | CsvFormat

  predicate IsDot(c: char) { c == '.' }

  /** `(fmt or path.suffix.lstrip('.')).lower()`: the explicit format, else the file suffix without its dots. */
  function FormatName(fmt: Option<string>, suffix: string): string
  {
    if fmt.Some? && fmt.value != "" then Lower(fmt.value) else Lower(TrimStart(suffix, IsDot))
  }

  /** The format check of `load_manifest`. */
  function ManifestFormat(fmt: Option<string>, suffix: string): (r: Result<Format, Exc>)
    ensures r.Failure? <==> FormatName(fmt, suffix) !in {"json", "csv"}
    ensures r.Failure? ==> r.error == Exc(ValueError, "Unsupported manifest format: " + FormatName(fmt, suffix))
    ensures r.Success? ==> (r.value == JsonFormat <==> FormatName(fmt, suffix) == "json")
  {
    var name := FormatName(fmt, suffix);
    if name == "json" then Success(JsonFormat)
    else if name == "csv" then Success(CsvFormat)
    else Failure(Exc(ValueError, "Unsupported manifest format: " + name))
  }

  /** A non-empty explicit format decides alone; the file's suffix is then not looked at. */
  lemma ExplicitFormatWins(fmt: string, suffix: string, other: string)
    requires fmt != ""
    ensures ManifestFormat(Some(fmt), suffix) == ManifestFormat(Some(fmt), other)
  {
  }

  /** An absent or empty format falls back to the suffix: `.json` and `.csv` files are recognised. */
  lemma SuffixFormats(fmt: Option<string>)
    requires fmt.None? || fmt == Some("")
    ensures ManifestFormat(fmt, ".json") == Success(JsonFormat)
    ensures ManifestFormat(fmt, ".csv") == Success(CsvFormat)
  {
    DottedSuffixName(fmt, "json");
    assert "." + "json" == ".json";
    DottedSuffixName(fmt, "csv");
    assert "." + "csv" == ".csv";
  }

  /** A suffix of one dot and a lower-case name names that format. */
  lemma DottedSuffixName(fmt: Option<string>, name: string)
    requires fmt.None? || fmt == Some("")
    requires name != [] && name[0] != '.'
    requires forall k :: 0 <= k < |name| ==> !('A' <= name[k] <= 'Z')
    ensures FormatName(fmt, "." + name) == name
  {
    assert ("." + name)[1..] == name;
    LowerNoCapitals(name);
  }

  /** The explicit format is not stripped of dots: `fmt='.json'` is refused. */
  lemma DottedFormatRefused(suffix: string)
    ensures ManifestFormat(Some(".json"), suffix) == Failure(Exc(ValueError, "Unsupported manifest format: .json"))
  {
    LowerNoCapitals(".json");
    assert FormatName(Some(".json"), suffix) == ".json";
    assert ".json"[0] != "json"[0] && ".json"[0] != "csv"[0];
    assert "Unsupported manifest format: " + ".json" == "Unsupported manifest format: .json";
  }

  /** A CSV row as `csv.DictReader` yields it; a column with no value is absent. */
  type Row = map<string, string>

  function Cell(row: Row, column: string): string
  {
    if column in row then row[column] else ""
  }

  /** `row.get(primary) or row.get(fallback) or ''`. */
  function CellOr(row: Row, primary: string, fallback: string): string
  {
    if Cell(row, primary) != "" then Cell(row, primary) else Cell(row, fallback)
  }

  function RowSource(row: Row): string { CellOr(row, "source", "Source") }

  function RowItemsField(row: Row): string { CellOr(row, "items_comma_separated", "items") }

  /** `p.strip()` for every part. */
  function StripAll(parts: seq<string>): seq<string>
  {
    seq(|parts|, i requires 0 <= i < |parts| => Strip(parts[i]))
  }

  /** The non-empty strings, in order. */
  function NonBlank(xs: seq<string>): seq<string>
  {
    if xs == [] then [] else (if xs[0] != "" then [xs[0]] else []) + NonBlank(xs[1..])
  }

  /** `[p.strip() for p in parts if p.strip()]`. */
  function CsvPieces(parts: seq<string>): seq<string>
  {
    NonBlank(StripAll(parts))
  }

  /** One item per piece, all with the same source hint. */
  function ItemsOf(source: string, pieces: seq<string>): (items: seq<ManifestItem>)
    ensures |items| == |pieces|
    ensures forall k :: 0 <= k < |items| ==> items[k] == ManifestItem(source, NormalizeUrl(pieces[k]))
  {
    if pieces == [] then [] else [ManifestItem(source, NormalizeUrl(pieces[0]))] + ItemsOf(source, pieces[1..])
  }

  /** The items one CSV row yields in `_from_csv`. */
  function RowItems(row: Row): seq<ManifestItem>
  {
    var field := RowItemsField(row);
    if field == "" then [] else ItemsOf(RowSource(row), CsvPieces(Split(field, ',')))
  }

  /** The items that `itemsOf` gives each row, row after row. */
  function ItemsByRow(itemsOf: Row -> seq<ManifestItem>, rows: seq<Row>): seq<ManifestItem>
  {
    if rows == [] then [] else itemsOf(rows[0]) + ItemsByRow(itemsOf, rows[1..])
  }

  /** `_from_csv`: the rows' items, row after row. */
  function FromCsv(rows: seq<Row>): seq<ManifestItem>
  {
    ItemsByRow(RowItems, rows)
  }

  /** The filter works part by part: filtering `a + b` filters `a`, then `b`. */
  lemma {:induction false} NonBlankAppend(a: seq<string>, b: seq<string>)
    ensures NonBlank(a + b) == NonBlank(a) + NonBlank(b)
    ensures |b| == 1 ==> NonBlank(b) == if b[0] != "" then b else []
  {
    if a == [] {
      assert a + b == b;
    } else {
      assert (a + b)[0] == a[0] && (a + b)[1..] == a[1..] + b;
      NonBlankAppend(a[1..], b);
    }
    if |b| == 1 {
      assert b[1..] == [];
    }
  }

  /**
   * A non-empty string at position `k` is kept, and lands at the position
   * given by the number of strings kept before it; so the kept strings
   * keep their order and none is kept twice.
   */
  lemma NonBlankComplete(xs: seq<string>, k: int)
    requires 0 <= k < |xs| && xs[k] != ""
    ensures |NonBlank(xs[..k])| < |NonBlank(xs)|
    ensures NonBlank(xs)[|NonBlank(xs[..k])|] == xs[k]
  {
    assert xs == xs[..k] + ([xs[k]] + xs[k + 1..]);
    NonBlankAppend(xs[..k], [xs[k]] + xs[k + 1..]);
    NonBlankAppend([xs[k]], xs[k + 1..]);
  }

  /**
   * Every kept string comes from a non-empty string of the input: the
   * `j`-th kept one is the input's string at a position before which
   * exactly `j` strings were kept.
   */
  lemma {:induction false} NonBlankSound(xs: seq<string>, j: int)
    requires 0 <= j < |NonBlank(xs)|
    ensures exists k :: 0 <= k < |xs| && xs[k] != "" && |NonBlank(xs[..k])| == j && NonBlank(xs)[j] == xs[k]
  {
    assert xs[..0] == [];
    if xs[0] != "" && j == 0 {
      assert NonBlank(xs)[0] == xs[0];
    } else {
      var head := if xs[0] != "" then 1 else 0;
      assert NonBlank(xs)[j] == NonBlank(xs[1..])[j - head];
      NonBlankSound(xs[1..], j - head);
      var k :| 0 <= k < |xs[1..]| && xs[1..][k] != "" && |NonBlank(xs[1..][..k])| == j - head
        && NonBlank(xs[1..])[j - head] == xs[1..][k];
      assert xs[..k + 1][0] == xs[0] && xs[..k + 1][1..] == xs[1..][..k];
      assert xs[k + 1] == xs[1..][k];
    }
  }

  /** Stripping works part by part. */
  lemma StripAllPrefix(parts: seq<string>, k: int)
    requires 0 <= k <= |parts|
    ensures StripAll(parts)[..k] == StripAll(parts[..k])
  {
  }

  /**
   * A part whose stripped text is non-empty contributes that text, at the
   * position given by the number of pieces the parts before it gave.
   */
  lemma CsvPiecesComplete(parts: seq<string>, k: int)
    requires 0 <= k < |parts| && Strip(parts[k]) != ""
    ensures |CsvPieces(parts[..k])| < |CsvPieces(parts)|
    ensures CsvPieces(parts)[|CsvPieces(parts[..k])|] == Strip(parts[k])
  {
    NonBlankComplete(StripAll(parts), k);
    StripAllPrefix(parts, k);
  }

  /**
   * The `j`-th piece is the stripped text of a part whose stripped text is
   * non-empty, and exactly `j` pieces come from the parts before it.
   */
  lemma CsvPiecesSound(parts: seq<string>, j: int)
    requires 0 <= j < |CsvPieces(parts)|
    ensures exists k ::
      0 <= k < |parts| && Strip(parts[k]) != "" && |CsvPieces(parts[..k])| == j && CsvPieces(parts)[j] == Strip(parts[k])
  {
    var stripped := StripAll(parts);
    NonBlankSound(stripped, j);
    var k :| 0 <= k < |stripped| && stripped[k] != "" && |NonBlank(stripped[..k])| == j && NonBlank(stripped)[j] == stripped[k];
    StripAllPrefix(parts, k);
  }

  /**
   * The `j`-th item of a row has the row's source, and its URL is the
   * stripped text of a comma-separated part of the items field before
   * which exactly `j` parts were non-blank; such a URL is non-empty,
   * holds no comma and is already normalized.
   */
  lemma RowItemsSound(row: Row, j: int)
    requires 0 <= j < |RowItems(row)|
    ensures var item := RowItems(row)[j];
      && item.sourceHint == RowSource(row)
      && item.url != "" && ',' !in item.url && NormalizeUrl(item.url) == item.url
    ensures var parts := Split(RowItemsField(row), ',');
      exists k :: 0 <= k < |parts| && |CsvPieces(parts[..k])| == j && RowItems(row)[j].url == Strip(parts[k])
  {
    var field := RowItemsField(row);
    assert field != "";
    assert RowItems(row) == ItemsOf(RowSource(row), CsvPieces(Split(field, ',')));
    var k := FieldItemSource(RowSource(row), field, j);
    var parts := Split(field, ',');
    assert RowItems(row)[j].url == Strip(parts[k]);
  }

  /** `RowItemsSound` for a non-empty items field, with the part's index as witness. */
  lemma FieldItemSource(source: string, field: string, j: int) returns (k: int)
    requires field != ""
    requires 0 <= j < |ItemsOf(source, CsvPieces(Split(field, ',')))|
    ensures var parts := Split(field, ',');
      && 0 <= k < |parts| && |CsvPieces(parts[..k])| == j
      && ItemsOf(source, CsvPieces(parts))[j] == ManifestItem(source, Strip(parts[k]))
      && Strip(parts[k]) != "" && ',' !in Strip(parts[k]) && NormalizeUrl(Strip(parts[k])) == Strip(parts[k])
  {
    var parts := Split(field, ',');
    var pieces := CsvPieces(parts);
    CsvPiecesSound(parts, j);
    k :| 0 <= k < |parts| && Strip(parts[k]) != "" && |CsvPieces(parts[..k])| == j && pieces[j] == Strip(parts[k]);
    PieceShape(parts[k]);
  }

  /** A comma-free part, stripped, is comma-free and already normalized. */
  lemma PieceShape(part: string)
    requires ',' !in part
    ensures ',' !in Strip(part) && NormalizeUrl(Strip(part)) == Strip(part)
  {
    StripCommaFree(part);
    TrimIdempotent(part, IsSpace);
  }

  lemma StripCommaFree(part: string)
    requires ',' !in part
    ensures ',' !in Strip(part)
  {
    TrimShape(part, IsSpace);
    ContainedChars(part, Strip(part));
    ContainsIff(part, Strip(part));
  }

  /**
   * A row yields one item per non-blank comma-separated part of its items
   * field, in order: the part at `k` becomes the item at the position given
   * by the number of non-blank parts before it.
   */
  lemma RowItemsComplete(row: Row, k: int)
    requires RowItemsField(row) != ""
    requires 0 <= k < |Split(RowItemsField(row), ',')|
    requires Strip(Split(RowItemsField(row), ',')[k]) != ""
    ensures var parts := Split(RowItemsField(row), ',');
      && |RowItems(row)| == |CsvPieces(parts)|
      && |CsvPieces(parts[..k])| < |RowItems(row)|
      && RowItems(row)[|CsvPieces(parts[..k])|] == ManifestItem(RowSource(row), Strip(parts[k]))
  {
    var parts := Split(RowItemsField(row), ',');
    CsvPiecesComplete(parts, k);
    TrimIdempotent(parts[k], IsSpace);
  }

  /** A row whose items field is empty or missing yields nothing. */
  lemma EmptyRowYieldsNothing(row: Row)
    requires Cell(row, "items_comma_separated") == "" && Cell(row, "items") == ""
    ensures RowItems(row) == []
  {
  }

  /** `_from_csv` keeps row order: the items of the first rows come first. */
  lemma FromCsvAppend(rows: seq<Row>, more: seq<Row>)
    ensures FromCsv(rows + more) == FromCsv(rows) + FromCsv(more)
  {
    ItemsByRowAppend(RowItems, rows, more);
  }

  lemma {:induction false} ItemsByRowAppend(itemsOf: Row -> seq<ManifestItem>, rows: seq<Row>, more: seq<Row>)
    ensures ItemsByRow(itemsOf, rows + more) == ItemsByRow(itemsOf, rows) + ItemsByRow(itemsOf, more)
  {
    if rows == [] {
      assert rows + more == more;
    } else {
      assert (rows + more)[0] == rows[0];
      assert (rows + more)[1..] == rows[1..] + more;
      ItemsByRowAppend(itemsOf, rows[1..], more);
    }
  }

  /** Python's `str(x)` of a parsed JSON value; lists and objects use the given `repr`. */
  function PyStr(j: Json, reprOf: Json -> string): string
  {
    match j
    case JNull => "None"
    case JBool(b) => if b then "True" else "False"
    case JNum(n) => IntString(n)
    case JStr(s) => s
    case _ => reprOf(j)
  }

  /** Items for the truthy entries of a URL list, in order. */
  function UrlItems(source: string, urls: seq<Json>, reprOf: Json -> string): seq<ManifestItem>
  {
    if urls == [] then []
    else
      var rest := UrlItems(source, urls[1..], reprOf);
      if JsonTruthy(urls[0]) then [ManifestItem(source, NormalizeUrl(PyStr(urls[0], reprOf)))] + rest else rest
  }

  /** Iterating a string walks its characters: one item per character. */
  function CharItems(source: string, s: string): (items: seq<ManifestItem>)
    ensures |items| == |s|
    ensures forall k :: 0 <= k < |s| ==> items[k] == ManifestItem(source, NormalizeUrl([s[k]]))
  {
    if s == [] then [] else [ManifestItem(source, NormalizeUrl([s[0]]))] + CharItems(source, s[1..])
  }

  /** The URL list of one object member: a nested object contributes its `items` (or nothing). */
  function GroupUrls(urls: Json): Json
  {
    match urls
    case JObj(members) =>
      var inner := JsonGet(members, "items");
      if inner.Some? && JsonTruthy(inner.value) then inner.value else JArr([])
    case _ => urls
  }

  /** The items of the member `source: urls` of a grouped object; a value that is not a sequence is skipped. */
  function GroupItems(source: string, urls: Json, reprOf: Json -> string): seq<ManifestItem>
  {
    match GroupUrls(urls)
    case JArr(elems) => UrlItems(source, elems, reprOf)
    case JStr(s) => CharItems(source, s)
    case _ => []
  }

  function FromObject(members: seq<(string, Json)>, reprOf: Json -> string): seq<ManifestItem>
  {
    if members == [] then []
    else GroupItems(members[0].0, members[0].1, reprOf) + FromObject(members[1..], reprOf)
  }

  /** An array entry yields one item when it is an object with a `url` member. */
  function EntryItems(entry: Json, reprOf: Json -> string): seq<ManifestItem>
  {
    match entry
    case JObj(members) =>
      var url := JsonGet(members, "url");
      var source := JsonGet(members, "source");
      if url.None? then []
      else
        var hint := if source.Some? && JsonTruthy(source.value) then PyStr(source.value, reprOf) else "";
        [ManifestItem(hint, NormalizeUrl(PyStr(url.value, reprOf)))]
    case _ => []
  }

  function FromArray(entries: seq<Json>, reprOf: Json -> string): seq<ManifestItem>
  {
    if entries == [] then [] else EntryItems(entries[0], reprOf) + FromArray(entries[1..], reprOf)
  }

  /**
   * `_from_json`: an object groups URLs by source, an array lists
   * `{url, source}` entries, a string is a sequence of characters (none of
   * them an object, so it yields nothing), and any other document is refused.
   */
  function FromJson(data: Json, reprOf: Json -> string): (r: Result<seq<ManifestItem>, Exc>)
    requires WellFormed(data)
    ensures r.Failure? <==> !(data.JObj? || data.JArr? || data.JStr?)
    ensures r.Failure? ==> r.error == Exc(ValueError, "JSON manifest must be an object or array")
    ensures r.Success? ==> Normalized(r.value)
  {
    FromObjectNormalized(if data.JObj? then data.members else [], reprOf);
    FromArrayNormalized(if data.JArr? then data.elems else [], reprOf);
    match data
    case JObj(members) => Success(FromObject(members, reprOf))
    case JArr(entries) => Success(FromArray(entries, reprOf))
    case JStr(_) => Success([])
    case _ => Failure(Exc(ValueError, "JSON manifest must be an object or array"))
  }

  /**
   * What the file's parsers produce, for whichever format is chosen: the
   * result of `json.loads` on the file's text, and the rows `csv.DictReader`
   * yields, or the error that opening, decoding or reading the file raised
   * on the way.
   */
  datatype Parsed = Parsed(document: Result<Json, Exc>, rows: Result<seq<Row>, Exc>)

  /**
   * `load_manifest`: a refused format raises before the file is read; a
   * file that cannot be read or parsed raises that error and yields no item;
   * a CSV file that reads fails in no other way; and every URL loaded has
   * no whitespace at either end.
   */
  function LoadManifest(fmt: Option<string>, suffix: string, input: Parsed, reprOf: Json -> string): (r: Result<seq<ManifestItem>, Exc>)
    requires input.document.Success? ==> WellFormed(input.document.value)
    ensures ManifestFormat(fmt, suffix).Failure? ==> r.Failure? && r.error.kind == ValueError
    ensures ManifestFormat(fmt, suffix) == Success(CsvFormat) ==> (r.Success? <==> input.rows.Success?)
    ensures ManifestFormat(fmt, suffix) == Success(CsvFormat) && input.rows.Failure? ==> r == Failure(input.rows.error)
    ensures ManifestFormat(fmt, suffix) == Success(JsonFormat) && input.document.Failure? ==> r == Failure(input.document.error)
    ensures r.Success? ==> Normalized(r.value)
  {
    match ManifestFormat(fmt, suffix)
    case Failure(e) => Failure(e)
    case Success(JsonFormat) =>
      (match input.document
       case Failure(e) => Failure(e)
       case Success(data) => FromJson(data, reprOf))
    case Success(CsvFormat) =>
      (match input.rows
       case Failure(e) => Failure(e)
       case Success(rows) => FromCsvNormalized(rows); Success(FromCsv(rows)))
  }

  /** From a grouped object, every item's hint is the key of the member it came from, and members keep their order. */
  lemma {:induction false} FromObjectHints(members: seq<(string, Json)>, reprOf: Json -> string, item: ManifestItem)
    requires item in FromObject(members, reprOf)
    ensures exists k :: 0 <= k < |members| && members[k].0 == item.sourceHint && item in GroupItems(members[k].0, members[k].1, reprOf)
  {
    if item in GroupItems(members[0].0, members[0].1, reprOf) {
      GroupItemsKeepSource(members[0].0, members[0].1, reprOf, item);
    } else {
      FromObjectHints(members[1..], reprOf, item);
      var k :| 0 <= k < |members[1..]| && members[1..][k].0 == item.sourceHint
        && item in GroupItems(members[1..][k].0, members[1..][k].1, reprOf);
      assert members[k + 1] == members[1..][k];
    }
  }

  /** Items of one member all carry the member's key. */
  lemma GroupItemsKeepSource(source: string, urls: Json, reprOf: Json -> string, item: ManifestItem)
    requires item in GroupItems(source, urls, reprOf)
    ensures item.sourceHint == source
  {
    if GroupUrls(urls).JArr? {
      UrlItemsKeepSource(source, GroupUrls(urls).elems, reprOf, item);
    }
  }

  lemma {:induction false} UrlItemsKeepSource(source: string, urls: seq<Json>, reprOf: Json -> string, item: ManifestItem)
    requires item in UrlItems(source, urls, reprOf)
    ensures item.sourceHint == source
  {
    if !(JsonTruthy(urls[0]) && item == ManifestItem(source, NormalizeUrl(PyStr(urls[0], reprOf)))) {
      UrlItemsKeepSource(source, urls[1..], reprOf, item);
    }
  }

  /**
   * A falsy entry of a URL list (`null`, `false`, `0`, `""`, `[]`, `{}`)
   * yields nothing; each truthy one yields exactly one item, in order.
   */
  lemma {:induction false} UrlItemsOrder(source: string, urls: seq<Json>, reprOf: Json -> string)
    ensures |UrlItems(source, urls, reprOf)| == |Truthies(urls)|
    ensures forall k :: 0 <= k < |Truthies(urls)| ==>
      UrlItems(source, urls, reprOf)[k] == ManifestItem(source, NormalizeUrl(PyStr(Truthies(urls)[k], reprOf)))
  {
    if urls != [] {
      UrlItemsOrder(source, urls[1..], reprOf);
    }
  }

  /** The truthy entries of a list, in order. */
  function Truthies(urls: seq<Json>): (r: seq<Json>)
    ensures forall k :: 0 <= k < |r| ==> JsonTruthy(r[k])
  {
    if urls == [] then []
    else if JsonTruthy(urls[0]) then [urls[0]] + Truthies(urls[1..])
    else Truthies(urls[1..])
  }

  /** A URL with no whitespace at either end is left as it is. */
  lemma NormalizeKeeps(url: string)
    requires url == [] || (!IsSpace(url[0]) && !IsSpace(url[|url| - 1]))
    ensures NormalizeUrl(url) == url
  {
    TrimStartKeeps(url, IsSpace);
    TrimEndKeeps(url, IsSpace);
  }

  /** Every item's URL is already normalized. */
  predicate Normalized(items: seq<ManifestItem>)
  {
    forall k :: 0 <= k < |items| ==> NormalizeUrl(items[k].url) == items[k].url
  }

  lemma NormalizedAppend(a: seq<ManifestItem>, b: seq<ManifestItem>)
    requires Normalized(a) && Normalized(b)
    ensures Normalized(a + b)
  {
    forall k | 0 <= k < |a + b| ensures NormalizeUrl((a + b)[k].url) == (a + b)[k].url {
      if k >= |a| {
        assert (a + b)[k] == b[k - |a|];
      }
    }
  }

  lemma ItemsOfNormalized(source: string, pieces: seq<string>)
    ensures Normalized(ItemsOf(source, pieces))
  {
    forall k | 0 <= k < |pieces| ensures NormalizeUrl(ItemsOf(source, pieces)[k].url) == ItemsOf(source, pieces)[k].url {
      NormalizeIdempotent(pieces[k]);
    }
  }

  lemma {:induction false} FromCsvNormalized(rows: seq<Row>)
    ensures Normalized(FromCsv(rows))
  {
    if rows != [] {
      var field := RowItemsField(rows[0]);
      ItemsOfNormalized(RowSource(rows[0]), CsvPieces(Split(field, ',')));
      FromCsvNormalized(rows[1..]);
      assert FromCsv(rows) == RowItems(rows[0]) + FromCsv(rows[1..]);
      NormalizedAppend(RowItems(rows[0]), FromCsv(rows[1..]));
    }
  }

  lemma {:induction false} UrlItemsNormalized(source: string, urls: seq<Json>, reprOf: Json -> string)
    ensures Normalized(UrlItems(source, urls, reprOf))
  {
    if urls != [] {
      UrlItemsNormalized(source, urls[1..], reprOf);
      var u := NormalizeUrl(PyStr(urls[0], reprOf));
      NormalizeIdempotent(PyStr(urls[0], reprOf));
      NormalizedAppend([ManifestItem(source, u)], UrlItems(source, urls[1..], reprOf));
    }
  }

  lemma GroupItemsNormalized(source: string, urls: Json, reprOf: Json -> string)
    ensures Normalized(GroupItems(source, urls, reprOf))
  {
    match GroupUrls(urls)
    case JArr(elems) => UrlItemsNormalized(source, elems, reprOf);
    case JStr(s) =>
      forall k | 0 <= k < |s| ensures NormalizeUrl(CharItems(source, s)[k].url) == CharItems(source, s)[k].url {
        NormalizeIdempotent([s[k]]);
      }
    case _ =>
  }

  lemma {:induction false} FromObjectNormalized(members: seq<(string, Json)>, reprOf: Json -> string)
    ensures Normalized(FromObject(members, reprOf))
  {
    if members != [] {
      GroupItemsNormalized(members[0].0, members[0].1, reprOf);
      FromObjectNormalized(members[1..], reprOf);
      NormalizedAppend(GroupItems(members[0].0, members[0].1, reprOf), FromObject(members[1..], reprOf));
    }
  }

  lemma EntryItemsNormalized(entry: Json, reprOf: Json -> string)
    ensures Normalized(EntryItems(entry, reprOf))
  {
    if entry.JObj? && JsonGet(entry.members, "url").Some? {
      NormalizeIdempotent(PyStr(JsonGet(entry.members, "url").value, reprOf));
    }
  }

  lemma {:induction false} FromArrayNormalized(entries: seq<Json>, reprOf: Json -> string)
    ensures Normalized(FromArray(entries, reprOf))
  {
    if entries != [] {
      EntryItemsNormalized(entries[0], reprOf);
      FromArrayNormalized(entries[1..], reprOf);
      NormalizedAppend(EntryItems(entries[0], reprOf), FromArray(entries[1..], reprOf));
    }
  }

  lemma JsonFormatChosen(suffix: string) ensures ManifestFormat(Some("json"), suffix) == Success(JsonFormat)
  {
    LowerNoCapitals("json");
  }

  lemma NormalizeExampleUrls()
    ensures NormalizeUrl("https://twitter.com/example/status/1") == "https://twitter.com/example/status/1"
    ensures NormalizeUrl("https://imgur.com/a/123") == "https://imgur.com/a/123"
  {
    NormalizeKeeps("https://twitter.com/example/status/1");
    NormalizeKeeps("https://imgur.com/a/123");
  }

  /** A grouped object whose members each list one non-empty URL yields one item per member, in order. */
  lemma SingleUrlGroups(k1: string, u1: string, k2: string, u2: string, reprOf: Json -> string)
    requires u1 != "" && u2 != ""
    ensures FromObject([(k1, JArr([JStr(u1)])), (k2, JArr([JStr(u2)]))], reprOf)
      == [ManifestItem(k1, NormalizeUrl(u1)), ManifestItem(k2, NormalizeUrl(u2))]
  {
    var members := [(k1, JArr([JStr(u1)])), (k2, JArr([JStr(u2)]))];
    OneUrlGroup(k1, u1, reprOf);
    OneUrlGroup(k2, u2, reprOf);
    assert members[1..] == [(k2, JArr([JStr(u2)]))];
    assert FromObject(members[1..], reprOf) == [ManifestItem(k2, NormalizeUrl(u2))] + FromObject([], reprOf);
  }

  lemma OneUrlGroup(k: string, u: string, reprOf: Json -> string)
    requires u != ""
    ensures GroupItems(k, JArr([JStr(u)]), reprOf) == [ManifestItem(k, NormalizeUrl(u))]
  {
    assert GroupUrls(JArr([JStr(u)])) == JArr([JStr(u)]);
    assert [JStr(u)][1..] == [];
    assert UrlItems(k, [JStr(u)], reprOf) == [ManifestItem(k, NormalizeUrl(u))] + UrlItems(k, [], reprOf);
  }

  /**
   * The grouped object of `tests/test_batch.py` loads as two items, the
   * first with hint `twitter` and its URL unchanged.
   */
  lemma GroupedObjectExample(reprOf: Json -> string)
    ensures var doc := JObj([("twitter", JArr([JStr("https://twitter.com/example/status/1")])),
                             ("images", JArr([JStr("https://imgur.com/a/123")]))]);
      LoadManifest(Some("json"), ".json", Parsed(Success(doc), Success([])), reprOf)
        == Success([ManifestItem("twitter", "https://twitter.com/example/status/1"),
                    ManifestItem("images", "https://imgur.com/a/123")])
  {
    JsonFormatChosen(".json");
    NormalizeExampleUrls();
    SingleUrlGroups("twitter", "https://twitter.com/example/status/1", "images", "https://imgur.com/a/123", reprOf);
  }
}
