/** The `lumi-download` script of the v5 API (v5_download.py): every
    document of a project written as one row of a tab-separated file, with
    one column per metadata field, then `title` and `text`. */
module V5Download {
  import opened Wrappers
  import opened PyText
  import opened JsonValue
  import opened RestCommon
  import Sorting
  import opened Cli
  import opened V5Upload

  const DOCS_PER_BATCH: nat := 1000

  /** The pilcrow sign that stands for a line break in the written text. */
  const PILCROW: char := '¶'

  /** `'{}'.format(value)`: a string as it is, any other value as `str()`
      renders it, which is given. */
  function Format(j: Json, show: Json -> string): string {
    if j.JStr? then j.s else show(j)
  }

  /** `'{}_{}'.format(item['name'], item['type'])`. */
  function ColumnName(item: Json, show: Json -> string): (r: Result<string, Failure>)
    ensures r.Ok? <==> item.JObject? && "name" in item.fields && "type" in item.fields
    ensures r.Ok? ==> r.value == Format(item.fields["name"], show) + "_" + Format(item.fields["type"], show)
  {
    var name :- Subscript(item, "name");
    var kind :- Subscript(item, "type");
    Ok(Format(name, show) + "_" + Format(kind, show))
  }

  /** A metadata column holds a '_', so it is never `title` or `text`. */
  lemma ColumnNotTitleOrText(item: Json, show: Json -> string)
    requires ColumnName(item, show).Ok?
    ensures '_' in ColumnName(item, show).value
    ensures ColumnName(item, show).value != "title" && ColumnName(item, show).value != "text"
  {
    var name := Format(item.fields["name"], show);
    var c := ColumnName(item, show).value;
    assert c[|name|] == '_';
    assert '_' !in "title" && '_' !in "text";
  }

  /** The column names of the project's metadata list, in its order, up to
      the first item that lacks a name or a type. */
  function MetadataFields(items: seq<Json>, show: Json -> string): Result<seq<string>, Failure>
    decreases |items|
  {
    if items == [] then Ok([])
    else
      var earlier :- MetadataFields(items[..|items| - 1], show);
      var column :- ColumnName(items[|items| - 1], show);
      Ok(earlier + [column])
  }

  /** Without error there is one column per item, in order. */
  lemma {:induction false} MetadataFieldsAt(items: seq<Json>, show: Json -> string)
    ensures MetadataFields(items, show).Ok? <==> forall i :: 0 <= i < |items| ==> ColumnName(items[i], show).Ok?
    ensures MetadataFields(items, show).Ok? ==>
      && |MetadataFields(items, show).value| == |items|
      && forall i :: 0 <= i < |items| ==> MetadataFields(items, show).value[i] == ColumnName(items[i], show).value
    decreases |items|
  {
    if items != [] {
      var init := items[..|items| - 1];
      MetadataFieldsAt(init, show);
      assert forall i :: 0 <= i < |init| ==> init[i] == items[i];
    }
  }

  lemma {:induction false} MetadataFieldsStop(items: seq<Json>, show: Json -> string, k: nat)
    requires k <= |items| && MetadataFields(items[..k], show).Err?
    ensures MetadataFields(items, show) == MetadataFields(items[..k], show)
    decreases |items| - k
  {
    if k < |items| {
      assert items[..|items| - 1][..k] == items[..k];
      MetadataFieldsStop(items[..|items| - 1], show, k);
    } else {
      assert items[..k] == items;
    }
  }

  /** The loop that appends the metadata column names. */
  method MetadataColumns(items: seq<Json>, show: Json -> string) returns (r: Result<seq<string>, Failure>)
    ensures r == MetadataFields(items, show)
  {
    var metadataFields: seq<string> := [];
    for i := 0 to |items|
      invariant MetadataFields(items[..i], show) == Ok(metadataFields)
    {
      assert items[..i + 1][..i] == items[..i];
      var name := ColumnName(items[i], show);
      if name.Err? {
        MetadataFieldsStop(items, show, i + 1);
        return Err(name.error);
      }
      metadataFields := metadataFields + [name.value];
    }
    assert items[..|items|] == items;
    return Ok(metadataFields);
  }

  /** The field names of the file: the metadata columns sorted, then
      `title`, then `text`. */
  function Header(columns: seq<string>): (r: seq<string>)
    ensures |r| == |columns| + 2
    ensures Sorting.Sorted(r[..|columns|]) && multiset(r[..|columns|]) == multiset(columns)
    ensures r[|columns|] == "title" && r[|columns| + 1] == "text"
  {
    var sorted := Sorting.SortSeq(columns);
    assert |sorted| == |multiset(sorted)| == |multiset(columns)| == |columns|;
    assert (sorted + ["title", "text"])[..|columns|] == sorted;
    sorted + ["title", "text"]
  }

  /** `doc_fields` after the loop over a document's metadata: each item's
      value under its column name, a later item overwriting an earlier one
      of the same name. */
  function DocFields(items: seq<Json>, show: Json -> string): Result<map<string, Json>, Failure>
    decreases |items|
  {
    if items == [] then Ok(map[])
    else
      var earlier :- DocFields(items[..|items| - 1], show);
      var item := items[|items| - 1];
      var column :- ColumnName(item, show);
      var value :- Subscript(item, "value");
      Ok(earlier[column := value])
  }

  lemma {:induction false} DocFieldsStop(items: seq<Json>, show: Json -> string, k: nat)
    requires k <= |items| && DocFields(items[..k], show).Err?
    ensures DocFields(items, show) == DocFields(items[..k], show)
    decreases |items| - k
  {
    if k < |items| {
      assert items[..|items| - 1][..k] == items[..k];
      DocFieldsStop(items[..|items| - 1], show, k);
    } else {
      assert items[..k] == items;
    }
  }

  /** No later item has the same column name as the one at `i`. */
  predicate LastNamed(items: seq<Json>, show: Json -> string, i: nat)
    requires i < |items|
  {
    forall j :: i < j < |items| ==> ColumnName(items[j], show) != ColumnName(items[i], show)
  }

  /** A document's metadata is read without error only when every item
      has a name, a type and a value. */
  lemma {:induction false} DocFieldsItems(items: seq<Json>, show: Json -> string)
    requires DocFields(items, show).Ok?
    ensures forall i :: 0 <= i < |items| ==> ColumnName(items[i], show).Ok? && Subscript(items[i], "value").Ok?
    decreases |items|
  {
    if items != [] {
      var init := items[..|items| - 1];
      assert forall i :: 0 <= i < |init| ==> init[i] == items[i];
      DocFieldsItems(init, show);
    }
  }

  lemma {:induction false} DocFieldsLastWins(items: seq<Json>, show: Json -> string, i: nat)
    requires DocFields(items, show).Ok?
    requires i < |items| && LastNamed(items, show, i)
    ensures ColumnName(items[i], show).Ok? && items[i].JObject? && "value" in items[i].fields
    ensures ColumnName(items[i], show).value in DocFields(items, show).value
    ensures DocFields(items, show).value[ColumnName(items[i], show).value] == items[i].fields["value"]
    decreases |items|
  {
    var init := items[..|items| - 1];
    var last := items[|items| - 1];
    assert forall j :: 0 <= j < |init| ==> init[j] == items[j];
    if i < |items| - 1 {
      assert LastNamed(init, show, i);
      DocFieldsLastWins(init, show, i);
    }
  }

  /** The loop that fills `doc_fields` from a document's metadata. */
  method DocFieldsOf(items: seq<Json>, show: Json -> string) returns (r: Result<map<string, Json>, Failure>)
    ensures r == DocFields(items, show)
  {
    var docFields: map<string, Json> := map[];
    for i := 0 to |items|
      invariant DocFields(items[..i], show) == Ok(docFields)
    {
      assert items[..i + 1][..i] == items[..i];
      var name := ColumnName(items[i], show);
      if name.Err? {
        DocFieldsStop(items, show, i + 1);
        return Err(name.error);
      }
      var value := Subscript(items[i], "value");
      if value.Err? {
        DocFieldsStop(items, show, i + 1);
        return Err(value.error);
      }
      docFields := docFields[name.value := value.value];
    }
    assert items[..|items|] == items;
    return Ok(docFields);
  }

  /** The dict one document is written from: its metadata columns, the
      text with every line break replaced by a pilcrow, and the title. */
  function RowFields(doc: Json, show: Json -> string): Result<map<string, Json>, Failure> {
    var metadata :- Subscript(doc, "metadata");
    var items :- RecordsOf(metadata);
    var fields :- DocFields(items, show);
    var text :- Subscript(doc, "text");
    if !text.JStr? then Err(Raise(AttributeError, "object has no attribute 'replace'"))
    else
      var title :- Subscript(doc, "title");
      Ok(fields["text" := JStr(ReplaceChar(text.s, '\n', PILCROW))]["title" := title])
  }

  /** `writer.writerow(doc_fields)`: a ValueError for a column that is not a
      field name, otherwise the fields in order, empty where missing. */
  function DocRow(doc: Json, header: seq<string>, show: Json -> string): (r: Result<CsvLine, Failure>)
    ensures r.Ok? ==> |r.value| == |header|
  {
    var row :- RowFields(doc, show);
    if !(row.Keys <= set h | h in header) then Err(Raise(ValueError, "dict contains fields not in fieldnames"))
    else Ok(Cells(header, row))
  }

  function RowMaker(header: seq<string>, show: Json -> string): Json -> Result<CsvLine, Failure> {
    doc => DocRow(doc, header, show)
  }

  /** The body of the loop over a page's documents, step by step. */
  method BuildRow(doc: Json, header: seq<string>, show: Json -> string) returns (r: Result<CsvLine, Failure>)
    ensures r == DocRow(doc, header, show)
  {
    var metadata := Subscript(doc, "metadata");
    if metadata.Err? {
      return Err(metadata.error);
    }
    var items := RecordsOf(metadata.value);
    if items.Err? {
      return Err(items.error);
    }
    var docFields := DocFieldsOf(items.value, show);
    if docFields.Err? {
      return Err(docFields.error);
    }
    var text := Subscript(doc, "text");
    if text.Err? {
      return Err(text.error);
    }
    if !text.value.JStr? {
      return Err(Raise(AttributeError, "object has no attribute 'replace'"));
    }
    var fields := docFields.value["text" := JStr(ReplaceChar(text.value.s, '\n', PILCROW))];
    var title := Subscript(doc, "title");
    if title.Err? {
      return Err(title.error);
    }
    fields := fields["title" := title.value];
    if !(fields.Keys <= set h | h in header) {
      return Err(Raise(ValueError, "dict contains fields not in fieldnames"));
    }
    return Ok(Cells(header, fields));
  }

  /** `download_docs(client, output_filename)`: the calls it makes and the
      lines it writes, header first, up to the first exception. */
  ghost function DownloadOutcome(count: Result<Json, Failure>, metadata: Result<Json, Failure>,
                                 page: int -> Result<Json, Failure>, show: Json -> string): (r: DocStream<CsvLine>)
    ensures r.calls != [] && r.calls[0] == CountDocs
    ensures r.docs != [] ==>
      && |r.calls| >= 2 && r.calls[1] == GetMetadata && ColumnsOf(metadata, show).Ok?
      && r.docs[0] == HeaderLine(Header(ColumnsOf(metadata, show).value))
  {
    var first := [CountDocs];
    if count.Err? then DocStream(first, [], Some(count.error))
    else
      match Subscript(count.value, "total_count")
      case Err(e) => DocStream(first, [], Some(e))
      case Ok(total) =>
        var asked := first + [GetMetadata];
        match ColumnsOf(metadata, show)
        case Err(e) => DocStream(asked, [], Some(e))
        case Ok(columns) =>
          var header := Header(columns);
          var lines := [HeaderLine(header)];
          if PyInt(total).None? then DocStream(asked, lines, Some(Raise(TypeError, "object cannot be interpreted as an integer")))
          else
            var rest := Pages(Range(0, PyInt(total).value, DOCS_PER_BATCH), DOCS_PER_BATCH, page, RowMaker(header, show));
            DocStream(asked + rest.calls, lines + rest.docs, rest.error)
  }

  /** `client.get('metadata')['result']` and its column names. */
  function ColumnsOf(metadata: Result<Json, Failure>, show: Json -> string): Result<seq<string>, Failure> {
    var response :- metadata;
    var result :- Subscript(response, "result");
    var items :- RecordsOf(result);
    MetadataFields(items, show)
  }

  /** `download_docs`, step by step. */
  method DownloadDocs(count: Result<Json, Failure>, metadata: Result<Json, Failure>,
                      page: int -> Result<Json, Failure>, show: Json -> string) returns (s: DocStream<CsvLine>)
    ensures s == DownloadOutcome(count, metadata, page, show)
  {
    var calls := [CountDocs];
    if count.Err? {
      return DocStream(calls, [], Some(count.error));
    }
    var numDocs := Subscript(count.value, "total_count");
    if numDocs.Err? {
      return DocStream(calls, [], Some(numDocs.error));
    }
    calls := calls + [GetMetadata];
    if metadata.Err? {
      return DocStream(calls, [], Some(metadata.error));
    }
    var result := Subscript(metadata.value, "result");
    if result.Err? {
      return DocStream(calls, [], Some(result.error));
    }
    var items := RecordsOf(result.value);
    if items.Err? {
      return DocStream(calls, [], Some(items.error));
    }
    var metadataFields := MetadataColumns(items.value, show);
    if metadataFields.Err? {
      return DocStream(calls, [], Some(metadataFields.error));
    }
    var header := Header(metadataFields.value);
    var lines := [HeaderLine(header)];
    var n := PyInt(numDocs.value);
    if n.None? {
      return DocStream(calls, lines, Some(Raise(TypeError, "object cannot be interpreted as an integer")));
    }
    var rest := FetchPages(Range(0, n.value, DOCS_PER_BATCH), DOCS_PER_BATCH, page, RowMaker(header, show));
    return DocStream(calls + rest.calls, lines + rest.docs, rest.error);
  }

  /** A written row has no line break in its text, which is the document's
      text with each line break turned into a pilcrow. */
  lemma TextWithoutNewline(doc: Json, columns: seq<string>, show: Json -> string)
    requires DocRow(doc, Header(columns), show).Ok?
    ensures var line := DocRow(doc, Header(columns), show).value;
      && doc.JObject? && "text" in doc.fields && doc.fields["text"].JStr?
      && line[|columns| + 1] == JStr(ReplaceChar(doc.fields["text"].s, '\n', PILCROW))
      && '\n' !in line[|columns| + 1].s
  {
    var header := Header(columns);
    RowFieldsText(doc, show);
    var row := RowFields(doc, show).value;
    var line := DocRow(doc, header, show).value;
    assert line == Cells(header, row);
    assert header[|columns| + 1] == "text";
    assert line[|columns| + 1] == row["text"];
    NoNewline(doc.fields["text"].s);
  }

  /** A document whose fields can be read has a string text, which its
      row holds with its line breaks replaced. */
  lemma RowFieldsText(doc: Json, show: Json -> string)
    requires RowFields(doc, show).Ok?
    ensures doc.JObject? && "text" in doc.fields && doc.fields["text"].JStr?
    ensures var row := RowFields(doc, show).value;
      "text" in row && row["text"] == JStr(ReplaceChar(doc.fields["text"].s, '\n', PILCROW))
  {
    assert "title" != "text";
  }

  lemma NoNewline(s: string)
    ensures '\n' !in ReplaceChar(s, '\n', PILCROW)
  {
    var r := ReplaceChar(s, '\n', PILCROW);
    forall i | 0 <= i < |r|
      ensures r[i] != '\n'
    {
    }
  }

  /** A written row holds the document's title in the `title` column, and
      under each of its metadata columns the value of the last metadata
      item with that name. */
  lemma RowColumns(doc: Json, items: seq<Json>, columns: seq<string>, show: Json -> string, j: nat, i: nat)
    requires DocRow(doc, Header(columns), show).Ok?
    requires Subscript(doc, "metadata") == Ok(JList(items))
    requires j < |items| && LastNamed(items, show, j)
    requires i < |columns| && ColumnName(items[j], show) == Ok(Header(columns)[i])
    ensures Subscript(doc, "title") == Ok(DocRow(doc, Header(columns), show).value[|columns|])
    ensures Subscript(items[j], "value") == Ok(DocRow(doc, Header(columns), show).value[i])
  {
    var header := Header(columns);
    var row := RowFields(doc, show).value;
    DocFieldsLastWins(items, show, j);
    ColumnNotTitleOrText(items[j], show);
    assert header[|columns|] == "title";
    assert "title" in row;
  }

  /** A document with a metadata column the project's metadata list does
      not have is not written: the writer raises ValueError. */
  lemma UnknownColumnRejected(doc: Json, columns: seq<string>, show: Json -> string, c: string)
    requires RowFields(doc, show).Ok? && c in RowFields(doc, show).value
    requires c !in columns && c != "title" && c != "text"
    ensures DocRow(doc, Header(columns), show).Err?
    ensures DocRow(doc, Header(columns), show).error.kind == ValueError
  {
    var header := Header(columns);
    assert header == header[..|columns|] + ["title", "text"];
    assert c !in multiset(header[..|columns|]);
    assert c !in header;
  }

  /** A download without error asks for the count, the metadata, then the
      pages at offsets 0, 1000, … strictly below the count; the header
      comes first and there is one row per document. */
  lemma DownloadPages(count: Result<Json, Failure>, metadata: Result<Json, Failure>,
                      page: int -> Result<Json, Failure>, show: Json -> string)
    requires DownloadOutcome(count, metadata, page, show).error.None?
    ensures var s := DownloadOutcome(count, metadata, page, show);
      var total := PyInt(count.value.fields["total_count"]).value;
      && |s.calls| >= 2 && s.calls[0] == CountDocs && s.calls[1] == GetMetadata
      && (forall i :: 2 <= i < |s.calls| ==>
            s.calls[i] == GetPage((i - 2) * DOCS_PER_BATCH, DOCS_PER_BATCH) && (i - 2) * DOCS_PER_BATCH < total)
      && (|s.calls| - 2) * DOCS_PER_BATCH >= total
      && s.docs[0] == HeaderLine(Header(ColumnsOf(metadata, show).value))
  {
    var total := PyInt(count.value.fields["total_count"]).value;
    var header := Header(ColumnsOf(metadata, show).value);
    var offsets := Range(0, total, DOCS_PER_BATCH);
    PagesRequests(offsets, DOCS_PER_BATCH, page, RowMaker(header, show));
    RequestsAt(offsets, DOCS_PER_BATCH);
    RangeElements(0, total, DOCS_PER_BATCH);
  }
}
