/** Turning a CSV, JSON or JSON-stream file into a stream of documents
    (json_stream.py): the format decision, the reading of a JSON stream,
    the normalisation of CSV rows, the choice of a text encoding, and the
    output file name. convert_to_json_stream.py repeats the format
    decision, the stream reader, the row normalisation and the file-name
    rule word for word; its encoding choice differs and is in the
    ConvertToJsonStream module. */
module JsonStream {
  import opened Wrappers
  import opened PyText
  import opened JsonValue
  import opened RestCommon

  datatype FileFormat = Csv | Json | Jsons

  /** `line.count('{') == line.count('}') and line.count('[') == line.count(']')`. */
  predicate Balanced(line: string) {
    Count(line, '{') == Count(line, '}') && Count(line, '[') == Count(line, ']')
  }

  /** `readline()` on a freshly opened file: the first line with its line
      break, and what is left after it. */
  function FirstLine(content: string): (r: (string, string))
    ensures content == r.0 + r.1
    ensures r.0 == [] || '\n' !in r.0[..|r.0| - 1]
    ensures r.1 != [] ==> r.0 != [] && r.0[|r.0| - 1] == '\n'
  {
    match FindChar(content, '\n')
    case None => (content, [])
    case Some(i) =>
      assert content == content[..i + 1] + content[i + 1..];
      assert content[..i + 1][..i] == content[..i];
      (content[..i + 1], content[i + 1..])
  }

  /** The format of a file: `.csv` and `.jsons` by name; any other name by
      its first line, which is a whole JSON value when its braces and
      brackets balance, and then a JSON stream unless nothing but
      whitespace follows it. */
  function DetectFormat(filename: string, content: string): (f: FileFormat)
    ensures EndsWith(filename, ".csv") ==> f == Csv
    ensures !EndsWith(filename, ".csv") && EndsWith(filename, ".jsons") ==> f == Jsons
    ensures !EndsWith(filename, ".csv") && !EndsWith(filename, ".jsons") ==>
      var (line, rest) := FirstLine(content);
      && (!Balanced(line) ==> f == Json)
      && (Balanced(line) ==> (f == Json <==> AllWhite(rest)))
  {
    if EndsWith(filename, ".csv") then Csv
    else if EndsWith(filename, ".jsons") then Jsons
    else
      var (line, rest) := FirstLine(content);
      if Balanced(line) && !AllWhite(rest) then Jsons else Json
  }

  /** An open text file: what a read has not consumed yet. */
  class OpenedFile {
    var remaining: string

    constructor (content: string)
      ensures remaining == content
    {
      remaining := content;
    }

    /** `readline()`. */
    method ReadLine() returns (line: string)
      modifies this
      ensures (line, remaining) == FirstLine(old(remaining))
    {
      var r := FirstLine(remaining);
      line := r.0;
      remaining := r.1;
    }

    /** `read()`: the rest of the file, after which there is nothing left. */
    method Read() returns (s: string)
      modifies this
      ensures s == old(remaining) && remaining == []
    {
      s := remaining;
      remaining := [];
    }
  }

  /** `open_json_or_csv_somehow(filename)` up to its choice of reader, with
      the loop that reads while what it read is whitespace. */
  method OpenJsonOrCsvSomehow(filename: string, content: string) returns (fileformat: FileFormat)
    ensures fileformat == DetectFormat(filename, content)
  {
    if EndsWith(filename, ".csv") {
      return Csv;
    } else if EndsWith(filename, ".jsons") {
      return Jsons;
    }
    var file := new OpenedFile(content);
    var line := file.ReadLine();
    var rest := file.remaining;
    if !Balanced(line) {
      return Json;
    }
    var ch := " ";
    while IsSpace(ch)
      invariant (ch == " " && file.remaining == rest) || (file.remaining == [] && ch == rest && rest != [])
      decreases |file.remaining|, |ch|
    {
      var previous := ch;
      ch := file.Read();
      if ch == [] {
        assert AllWhite(rest) by {
          assert previous == " " || IsSpace(rest);
        }
        return Json;
      }
    }
    return Jsons;
  }

  /** The non-blank lines of a JSON stream, stripped. */
  function NonBlank(lines: seq<string>): (r: seq<string>)
    ensures forall i :: 0 <= i < |r| ==> r[i] != []
    ensures |r| <= |lines|
    decreases |lines|
  {
    if lines == [] then []
    else
      var earlier := NonBlank(lines[..|lines| - 1]);
      var line := Strip(lines[|lines| - 1]);
      if line == [] then earlier else earlier + [line]
  }

  /** What a generator yields from a sequence of per-item outcomes: the
      kept values in order, up to the first error. */
  function Yielded<M>(results: seq<Result<Option<M>, Failure>>): (r: (seq<M>, Option<Failure>))
    decreases |results|
  {
    if results == [] then ([], None)
    else
      var earlier := Yielded(results[..|results| - 1]);
      if earlier.1.Some? then earlier
      else
        match results[|results| - 1]
        case Err(e) => (earlier.0, Some(e))
        case Ok(None) => earlier
        case Ok(Some(d)) => (earlier.0 + [d], None)
  }

  lemma {:induction false} YieldedLength<M>(results: seq<Result<Option<M>, Failure>>)
    ensures |Yielded(results).0| <= |results|
    decreases |results|
  {
    if results != [] {
      YieldedLength(results[..|results| - 1]);
    }
  }

  lemma {:induction false} YieldedStop<M>(results: seq<Result<Option<M>, Failure>>, k: nat)
    requires k <= |results| && Yielded(results[..k]).1.Some?
    ensures Yielded(results) == Yielded(results[..k])
    decreases |results| - k
  {
    if k < |results| {
      assert results[..|results| - 1][..k] == results[..k];
      YieldedStop(results[..|results| - 1], k);
    } else {
      assert results[..k] == results;
    }
  }

  /** Every value yielded is kept by one of the outcomes; the generator
      fails exactly when one of the outcomes is an error, and then with
      that error. */
  lemma {:induction false} YieldedFrom<M>(results: seq<Result<Option<M>, Failure>>)
    ensures var (out, error) := Yielded(results);
      && |out| <= |results|
      && (forall i :: 0 <= i < |out| ==> exists j :: 0 <= j < |results| && results[j] == Ok(Some(out[i])))
      && (error.None? <==> forall j :: 0 <= j < |results| ==> results[j].Ok?)
      && (error.Some? ==> exists j :: 0 <= j < |results| && results[j] == Err(error.value))
    decreases |results|
  {
    if results != [] {
      var init := results[..|results| - 1];
      YieldedFrom(init);
      assert forall j :: 0 <= j < |init| ==> init[j] == results[j];
    }
  }

  /** One line of `stream_json_lines`: skipped when blank, otherwise
      decoded once stripped, or a ValueError. */
  function LineOutcome(line: string, loads: string -> Option<Json>): (r: Result<Option<Json>, Failure>)
    ensures r == Ok(None) <==> Strip(line) == []
    ensures r.Err? ==> r.error.kind == ValueError
  {
    var stripped := Strip(line);
    if stripped == [] then Ok(None)
    else
      match loads(stripped)
      case None => Err(Raise(ValueError, "No JSON object could be decoded"))
      case Some(v) => Ok(Some(v))
  }

  function LineResults(lines: seq<string>, loads: string -> Option<Json>): (r: seq<Result<Option<Json>, Failure>>)
    ensures |r| == |lines| && forall i :: 0 <= i < |lines| ==> r[i] == LineOutcome(lines[i], loads)
  {
    seq(|lines|, i requires 0 <= i < |lines| => LineOutcome(lines[i], loads))
  }

  /** `stream_json_lines(file)`: each line stripped, blank ones skipped, the
      others decoded, up to the first that is not JSON. */
  function StreamJsonLines(lines: seq<string>, loads: string -> Option<Json>): (r: (seq<Json>, Option<Failure>))
    ensures |r.0| <= |lines|
  {
    YieldedLength(LineResults(lines, loads));
    Yielded(LineResults(lines, loads))
  }

  /** The generator loop of `stream_json_lines`. */
  method StreamLines(lines: seq<string>, loads: string -> Option<Json>) returns (out: seq<Json>, error: Option<Failure>)
    ensures (out, error) == StreamJsonLines(lines, loads)
  {
    ghost var results := LineResults(lines, loads);
    out := [];
    for i := 0 to |lines|
      invariant Yielded(results[..i]) == (out, None)
    {
      assert results[..i + 1][..i] == results[..i];
      var line := Strip(lines[i]);
      if line != [] {
        var decoded := loads(line);
        if decoded.None? {
          YieldedStop(results, i + 1);
          return out, Some(Raise(ValueError, "No JSON object could be decoded"));
        }
        out := out + [decoded.value];
      }
    }
    assert results[..|lines|] == results;
    error := None;
  }

  /** The values read so far are the decoded non-blank lines, in order;
      a ValueError stops the stream at the first non-blank line that is
      not JSON. */
  lemma {:induction false} StreamJsonLinesPrefix(lines: seq<string>, loads: string -> Option<Json>)
    ensures var (out, error) := StreamJsonLines(lines, loads);
      && (error.None? ==> |out| == |NonBlank(lines)|)
      && (error.Some? ==> |out| < |NonBlank(lines)| && loads(NonBlank(lines)[|out|]).None? && error.value.kind == ValueError)
      && forall i :: 0 <= i < |out| ==> i < |NonBlank(lines)| && loads(NonBlank(lines)[i]) == Some(out[i])
    decreases |lines|
  {
    if lines != [] {
      var init := lines[..|lines| - 1];
      StreamJsonLinesPrefix(init, loads);
      assert LineResults(lines, loads)[..|lines| - 1] == LineResults(init, loads);
      var nb := NonBlank(init);
      var line := Strip(lines[|lines| - 1]);
      if line == [] {
        assert NonBlank(lines) == nb;
      } else {
        assert NonBlank(lines) == nb + [line];
      }
    }
  }

  /** The stream holds one value per non-blank line, decoded from the
      stripped line, in order, exactly when every non-blank line is JSON;
      otherwise it stops with a ValueError at the first that is not. */
  lemma StreamJsonLinesDecodes(lines: seq<string>, loads: string -> Option<Json>)
    ensures var (out, error) := StreamJsonLines(lines, loads);
      && (error.None? <==> forall i :: 0 <= i < |NonBlank(lines)| ==> loads(NonBlank(lines)[i]).Some?)
      && (error.None? ==> out == seq(|NonBlank(lines)|, i requires 0 <= i < |NonBlank(lines)| && loads(NonBlank(lines)[i]).Some? =>
                                         loads(NonBlank(lines)[i]).value))
      && (error.Some? ==> |out| < |NonBlank(lines)| && loads(NonBlank(lines)[|out|]).None? && error.value.kind == ValueError)
  {
    StreamJsonLinesPrefix(lines, loads);
  }

  /** `zip(header, row)`: pairs up to the shorter of the two. */
  function Zip(header: seq<string>, row: seq<string>): (r: seq<(string, string)>)
    ensures |r| == Min(|header|, |row|)
    ensures forall i :: 0 <= i < |r| ==> r[i] == (header[i], row[i])
  {
    seq(Min(|header|, |row|), i requires 0 <= i < Min(|header|, |row|) => (header[i], row[i]))
  }

  /** `dict(pairs)`: its keys are the keys of the pairs, and a later pair
      overwrites an earlier one with the same key. */
  function DictOf(pairs: seq<(string, string)>): (d: map<string, string>)
    ensures forall k :: k in d <==> exists i :: 0 <= i < |pairs| && pairs[i].0 == k
    decreases |pairs|
  {
    if pairs == [] then map[]
    else
      var init := pairs[..|pairs| - 1];
      var last := pairs[|pairs| - 1];
      assert forall i :: 0 <= i < |init| ==> init[i] == pairs[i];
      DictOf(init)[last.0 := last.1]
  }

  predicate IsQueryColumn(key: string) {
    key == "query" || key == "subset"
  }

  /** `[cell[1] for cell in row_list if cell[0] == 'query' or cell[0] == 'subset']`:
      empty exactly when no pair is a query or subset column. */
  function Queries(pairs: seq<(string, string)>): (r: seq<string>)
    ensures |r| <= |pairs|
    decreases |pairs|
  {
    if pairs == [] then []
    else
      var init := pairs[..|pairs| - 1];
      var last := pairs[|pairs| - 1];
      if IsQueryColumn(last.0) then Queries(init) + [last.1] else Queries(init)
  }

  /** The list is empty exactly when no column is a query or subset
      column, and it lists the last such cell last. */
  lemma {:induction false} QueriesFound(pairs: seq<(string, string)>)
    ensures Queries(pairs) == [] <==> forall i :: 0 <= i < |pairs| ==> !IsQueryColumn(pairs[i].0)
    ensures pairs != [] && IsQueryColumn(pairs[|pairs| - 1].0) ==> Queries(pairs)[|Queries(pairs)| - 1] == pairs[|pairs| - 1].1
    decreases |pairs|
  {
    if pairs != [] {
      var init := pairs[..|pairs| - 1];
      assert forall i :: 0 <= i < |init| ==> init[i] == pairs[i];
      QueriesFound(init);
    }
  }

  /** A dict of strings as a JSON object. */
  function AsJson(d: map<string, string>): map<string, Json> {
    map k | k in d :: JStr(d[k])
  }

  /** How a header cell and a body cell are obtained from the bytes of the
      file, how a text is normalised (Unicode NFKC), and how `int()` parses
      a date; these are library calls. */
  datatype Decoding = Decoding(
    header: string -> string,
    cell: string -> string,
    nfkc: string -> string,
    parseInt: string -> Option<int>)

  /** json_stream.py decodes every cell with the detected encoding and
      mends it with `ftfy`; header cells are lower-cased before mending. */
  function FixedDecoding(decode: string -> string, lower: string -> string, ftfy: string -> string,
                         nfkc: string -> string, parseInt: string -> Option<int>): (dec: Decoding)
    ensures forall s :: dec.header(s) == ftfy(lower(decode(s)))
    ensures forall s :: dec.cell(s) == ftfy(decode(s))
    ensures dec.nfkc == nfkc && dec.parseInt == parseInt
  {
    Decoding(s => ftfy(lower(decode(s))), s => ftfy(decode(s)), nfkc, parseInt)
  }

  function Decoded(row: seq<string>, dec: Decoding): (r: seq<string>)
    ensures |r| == |row| && forall i :: 0 <= i < |row| ==> r[i] == dec.cell(row[i])
  {
    seq(|row|, i requires 0 <= i < |row| => dec.cell(row[i]))
  }

  /** The query and subset columns replaced by one `queries` list. */
  function WithQueries(d: map<string, Json>, queries: seq<string>): (r: map<string, Json>)
    ensures "query" !in r && "subset" !in r && "queries" in r && r["queries"] == JList(StrList(queries))
  {
    var withList := d["queries" := JList(StrList(queries))];
    var noQuery := if "query" in withList then withList - {"query"} else withList;
    if "subset" in noQuery then noQuery - {"subset"} else noQuery
  }

  /** Any other key is left as it was. */
  lemma WithQueriesOther(d: map<string, Json>, queries: seq<string>, k: string)
    requires !IsQueryColumn(k) && k != "queries"
    ensures k in WithQueries(d, queries) <==> k in d
    ensures k in d ==> WithQueries(d, queries)[k] == d[k]
  {
  }

  /** `row_dict['text']` replaced by its normalised form, stripped of Unicode
      whitespace first, since the cells are unicode strings by then. */
  function Retexted(d: map<string, string>, dec: Decoding): map<string, Json>
    requires "text" in d
  {
    AsJson(d)["text" := JStr(dec.nfkc(UnicodeStrip(d["text"])))]
  }

  predicate DateParses(d: map<string, string>, dec: Decoding) {
    "date" in d ==> dec.parseInt(d["date"]).Some?
  }

  /** `row_dict['date']` replaced by its integer, when there is one. */
  function Dated(m: map<string, Json>, d: map<string, string>, dec: Decoding): map<string, Json>
    requires DateParses(d, dec)
  {
    if "date" in d then m["date" := JInt(dec.parseInt(d["date"]).value)] else m
  }

  /** The dict `_read_csv` yields for a row with a non-empty text and a
      date that parses. */
  function Kept(d: map<string, string>, queries: seq<string>, dec: Decoding): map<string, Json>
    requires "text" in d && DateParses(d, dec)
  {
    var m := Dated(Retexted(d, dec), d, dec);
    if "query" in m || "subset" in m then WithQueries(m, queries) else m
  }

  /** A row with a non-empty text: a ValueError when its date does not
      parse, otherwise the dict of Kept, of which NormalisedText,
      NormalisedDate, NormalisedQueries and NormalisedOthers state what it
      holds. */
  function Normalised(d: map<string, string>, pairs: seq<(string, string)>, dec: Decoding): (r: Result<map<string, Json>, Failure>)
    requires "text" in d
    ensures r.Err? <==> !DateParses(d, dec)
    ensures r.Err? ==> r.error.kind == ValueError
  {
    if !DateParses(d, dec) then Err(Raise(ValueError, "invalid literal for int() with base 10"))
    else Ok(Kept(d, Queries(pairs), dec))
  }

  lemma KeysDistinct()
    ensures "text" != "date" && "text" != "queries" && "date" != "queries"
    ensures !IsQueryColumn("text") && !IsQueryColumn("date") && !IsQueryColumn("queries")
  {
  }

  /** A key that is not a query column survives the gathering of the
      queries unchanged. */
  lemma KeptKey(d: map<string, string>, queries: seq<string>, dec: Decoding, k: string)
    requires "text" in d && DateParses(d, dec) && !IsQueryColumn(k) && k != "queries"
    ensures k in Kept(d, queries, dec) <==> k in Dated(Retexted(d, dec), d, dec)
    ensures k in Kept(d, queries, dec) ==> Kept(d, queries, dec)[k] == Dated(Retexted(d, dec), d, dec)[k]
  {
    WithQueriesOther(Dated(Retexted(d, dec), d, dec), queries, k);
  }

  /** The text of a kept row is the stripped, normalised text cell. */
  lemma NormalisedText(d: map<string, string>, queries: seq<string>, dec: Decoding)
    requires "text" in d && DateParses(d, dec)
    ensures "text" in Kept(d, queries, dec)
    ensures Kept(d, queries, dec)["text"] == JStr(dec.nfkc(UnicodeStrip(d["text"])))
  {
    var m := Dated(Retexted(d, dec), d, dec);
    assert "text" in m && m["text"] == JStr(dec.nfkc(UnicodeStrip(d["text"]))) by {
      KeysDistinct();
    }
    assert !IsQueryColumn("text") && "text" != "queries" by {
      KeysDistinct();
    }
    KeptKey(d, queries, dec, "text");
  }

  /** The date of a kept row is the integer its cell spells. */
  lemma NormalisedDate(d: map<string, string>, queries: seq<string>, dec: Decoding)
    requires "text" in d && "date" in d && DateParses(d, dec)
    ensures "date" in Kept(d, queries, dec)
    ensures Kept(d, queries, dec)["date"] == JInt(dec.parseInt(d["date"]).value)
  {
    KeysDistinct();
    KeptKey(d, queries, dec, "date");
  }

  /** With a query or subset column, those columns are gone and their
      cells are listed, in column order, under `queries`. */
  lemma NormalisedQueries(d: map<string, string>, queries: seq<string>, dec: Decoding)
    requires "text" in d && ("query" in d || "subset" in d) && DateParses(d, dec)
    ensures var m := Kept(d, queries, dec);
      "query" !in m && "subset" !in m && "queries" in m && m["queries"] == JList(StrList(queries))
  {
    KeysDistinct();
    var m := Dated(Retexted(d, dec), d, dec);
    assert "query" in m || "subset" in m;
  }

  /** Every other column is kept as read, and nothing but `queries` is
      added. */
  lemma NormalisedOthers(d: map<string, string>, queries: seq<string>, dec: Decoding, k: string)
    requires "text" in d && DateParses(d, dec)
    ensures k in Kept(d, queries, dec) ==> k in d || k == "queries"
    ensures k in d && k != "text" && k != "date" && !IsQueryColumn(k) && k != "queries" ==>
      k in Kept(d, queries, dec) && Kept(d, queries, dec)[k] == JStr(d[k])
  {
    KeysDistinct();
    if !IsQueryColumn(k) && k != "queries" {
      WithQueriesOther(Dated(Retexted(d, dec), d, dec), queries, k);
    }
  }

  /** One row of `_read_csv`: None when it is skipped (no cells, or an
      empty `text`), a KeyError when there is no `text` column, otherwise
      the normalised dict. */
  function RowDict(row: seq<string>, header: seq<string>, dec: Decoding): (r: Result<Option<map<string, Json>>, Failure>)
    ensures row == [] ==> r == Ok(None)
    ensures r.Err? ==> r.error == Failure(KeyError, JStr("text")) || r.error.kind == ValueError
  {
    if row == [] then Ok(None)
    else
      var pairs := Zip(header, Decoded(row, dec));
      var d := DictOf(pairs);
      if "text" !in d then Err(Failure(KeyError, JStr("text")))
      else if d["text"] == [] then Ok(None)
      else
        match Normalised(d, pairs, dec)
        case Err(e) => Err(e)
        case Ok(m) => Ok(Some(m))
  }

  /** The statements of `_read_csv`'s loop body, updating `row_dict` in
      place. */
  method NormaliseRow(row: seq<string>, header: seq<string>, dec: Decoding) returns (r: Result<Option<map<string, Json>>, Failure>)
    ensures r == RowDict(row, header, dec)
  {
    if |row| == 0 {
      return Ok(None);
    }
    var rowList := Zip(header, Decoded(row, dec));
    var strings := DictOf(rowList);
    if "text" !in strings {
      return Err(Failure(KeyError, JStr("text")));
    }
    if |strings["text"]| == 0 {
      return Ok(None);
    }
    var rowDict := AsJson(strings);
    rowDict := rowDict["text" := JStr(dec.nfkc(UnicodeStrip(strings["text"])))];
    if "date" in rowDict {
      var date := dec.parseInt(strings["date"]);
      if date.None? {
        return Err(Raise(ValueError, "invalid literal for int() with base 10"));
      }
      rowDict := rowDict["date" := JInt(date.value)];
    }
    if "query" in rowDict || "subset" in rowDict {
      rowDict := rowDict["queries" := JList(StrList(Queries(rowList)))];
      if "query" in rowDict {
        rowDict := rowDict - {"query"};
      }
      if "subset" in rowDict {
        rowDict := rowDict - {"subset"};
      }
    }
    return Ok(Some(rowDict));
  }

  /** A row is skipped exactly when it has no cells or its text is empty;
      it raises a KeyError exactly when it has cells but none of them is
      under a `text` header. */
  lemma RowDictCases(row: seq<string>, header: seq<string>, dec: Decoding)
    ensures var d := DictOf(Zip(header, Decoded(row, dec)));
      RowDict(row, header, dec) == Ok(None) <==> row == [] || ("text" in d && d["text"] == [])
    ensures (RowDict(row, header, dec).Err? && RowDict(row, header, dec).error.kind == KeyError) <==>
      row != [] && forall i :: 0 <= i < Min(|header|, |row|) ==> header[i] != "text"
  {
    var pairs := Zip(header, Decoded(row, dec));
    if row != [] && "text" !in DictOf(pairs) {
      forall i | 0 <= i < Min(|header|, |row|)
        ensures header[i] != "text"
      {
        assert pairs[i].0 == header[i];
      }
    }
    if row != [] && "text" in DictOf(pairs) {
      var i :| 0 <= i < |pairs| && pairs[i].0 == "text";
      assert header[i] == "text";
    }
  }

  function RowResults(rows: seq<seq<string>>, header: seq<string>, dec: Decoding): (r: seq<Result<Option<map<string, Json>>, Failure>>)
    ensures |r| == |rows| && forall j :: 0 <= j < |rows| ==> r[j] == RowDict(rows[j], header, dec)
  {
    seq(|rows|, j requires 0 <= j < |rows| => RowDict(rows[j], header, dec))
  }

  /** `_read_csv(reader, header, encoding)`: the rows that are kept, in
      order, up to the first that raises. */
  function ReadCsv(rows: seq<seq<string>>, header: seq<string>, dec: Decoding): (r: (seq<map<string, Json>>, Option<Failure>))
    ensures |r.0| <= |rows|
    ensures r.1.None? <==> forall j :: 0 <= j < |rows| ==> RowDict(rows[j], header, dec).Ok?
  {
    YieldedFrom(RowResults(rows, header, dec));
    Yielded(RowResults(rows, header, dec))
  }

  /** The generator loop of `_read_csv`. */
  method ReadCsvRows(rows: seq<seq<string>>, header: seq<string>, dec: Decoding) returns (out: seq<map<string, Json>>, error: Option<Failure>)
    ensures (out, error) == ReadCsv(rows, header, dec)
  {
    ghost var results := RowResults(rows, header, dec);
    out := [];
    for i := 0 to |rows|
      invariant Yielded(results[..i]) == (out, None)
    {
      assert results[..i + 1][..i] == results[..i];
      var d := NormaliseRow(rows[i], header, dec);
      if d.Err? {
        YieldedStop(results, i + 1);
        return out, Some(d.error);
      }
      if d.value.Some? {
        out := out + [d.value.value];
      }
    }
    assert results[..|rows|] == results;
    error := None;
  }

  /** Every document `_read_csv` yields is the dict of one of the rows;
      it fails exactly when one of the rows raises, and then with that
      row's error. */
  lemma ReadCsvYields(rows: seq<seq<string>>, header: seq<string>, dec: Decoding)
    ensures var (out, error) := ReadCsv(rows, header, dec);
      && |out| <= |rows|
      && (forall i :: 0 <= i < |out| ==> exists j :: 0 <= j < |rows| && RowResults(rows, header, dec)[j] == Ok(Some(out[i])))
      && (error.None? <==> forall j :: 0 <= j < |rows| ==> RowResults(rows, header, dec)[j].Ok?)
      && (error.Some? ==> exists j :: 0 <= j < |rows| && RowResults(rows, header, dec)[j] == Err(error.value))
  {
    YieldedFrom(RowResults(rows, header, dec));
  }

  /** The dict of a kept row has a string text, the stripped normalised
      text cell, and no query or subset column. */
  lemma RowDictShape(row: seq<string>, header: seq<string>, dec: Decoding)
    requires RowDict(row, header, dec).Ok? && RowDict(row, header, dec).value.Some?
    ensures var m := RowDict(row, header, dec).value.value;
      var d := DictOf(Zip(header, Decoded(row, dec)));
      && "text" in d && d["text"] != []
      && "text" in m && m["text"] == JStr(dec.nfkc(UnicodeStrip(d["text"])))
      && "query" !in m && "subset" !in m
  {
    var pairs := Zip(header, Decoded(row, dec));
    var d := DictOf(pairs);
    NormalisedText(d, Queries(pairs), dec);
    if "query" in d || "subset" in d {
      NormalisedQueries(d, Queries(pairs), dec);
    } else {
      NormalisedOthers(d, Queries(pairs), dec, "query");
      NormalisedOthers(d, Queries(pairs), dec, "subset");
    }
  }

  /** So every document `_read_csv` yields has a text and no query or
      subset column. */
  lemma ReadCsvShape(rows: seq<seq<string>>, header: seq<string>, dec: Decoding)
    ensures var out := ReadCsv(rows, header, dec).0;
      forall i :: 0 <= i < |out| ==> "text" in out[i] && out[i]["text"].JStr? && "query" !in out[i] && "subset" !in out[i]
  {
    ReadCsvYields(rows, header, dec);
    var out: seq<map<string, Json>> := ReadCsv(rows, header, dec).0;
    forall i | 0 <= i < |out|
      ensures "text" in out[i] && out[i]["text"].JStr? && "query" !in out[i] && "subset" !in out[i]
    {
      var j :| 0 <= j < |rows| && RowResults(rows, header, dec)[j] == Ok(Some(out[i]));
      RowDictShape(rows[j], header, dec);
    }
  }

  /** `open_csv_somehow(filename)`: the first row, decoded and lower-cased,
      is the header and the others are read by `_read_csv`; a file without
      any row makes `reader.next()` raise StopIteration. */
  function OpenCsvSomehow(rows: seq<seq<string>>, dec: Decoding): (r: (seq<map<string, Json>>, Option<Failure>))
    ensures rows == [] ==> r.0 == [] && r.1.Some? && r.1.value.kind == StopIteration
    ensures rows != [] ==> r == ReadCsv(rows[1..], seq(|rows[0]|, i requires 0 <= i < |rows[0]| => dec.header(rows[0][i])), dec)
  {
    if rows == [] then ([], Some(Failure(StopIteration, JNull)))
    else ReadCsv(rows[1..], seq(|rows[0]|, i requires 0 <= i < |rows[0]| => dec.header(rows[0][i])), dec)
  }

  /** An input file as its three readers see it: the whole text, its
      lines, and its rows as the CSV reader splits them. */
  datatype InputFile = InputFile(name: string, content: string, lines: seq<string>, rows: seq<seq<string>>)

  /** `json.loads` for one line and `json.load` for a whole file. */
  datatype JsonReaders = JsonReaders(loads: string -> Option<Json>, load: string -> Option<Json>)

  function Objects(docs: seq<map<string, Json>>): (r: seq<Json>)
    ensures |r| == |docs| && forall i :: 0 <= i < |docs| ==> r[i] == JObject(docs[i])
  {
    seq(|docs|, i requires 0 <= i < |docs| => JObject(docs[i]))
  }

  /** Iterating over what `open_json_or_csv_somehow` returns: the CSV
      documents, the values of a JSON stream, or the elements of a file
      holding one JSON list. */
  function Entries(file: InputFile, json: JsonReaders, dec: Decoding): (r: (seq<Json>, Option<Failure>))
    ensures DetectFormat(file.name, file.content) == Csv ==>
      r == (Objects(OpenCsvSomehow(file.rows, dec).0), OpenCsvSomehow(file.rows, dec).1)
    ensures DetectFormat(file.name, file.content) == Jsons ==> r == StreamJsonLines(file.lines, json.loads)
    ensures DetectFormat(file.name, file.content) == Json ==>
      match json.load(file.content)
      case Some(JList(items)) => r == (items, None)
      case Some(_) => r.0 == [] && r.1.Some? && r.1.value.kind == TypeError
      case None => r.0 == [] && r.1.Some? && r.1.value.kind == ValueError
  {
    match DetectFormat(file.name, file.content)
    case Csv =>
      var (docs, error) := OpenCsvSomehow(file.rows, dec);
      (Objects(docs), error)
    case Jsons => StreamJsonLines(file.lines, json.loads)
    case Json =>
      match json.load(file.content)
      case None => ([], Some(Raise(ValueError, "No JSON object could be decoded")))
      case Some(JList(items)) => (items, None)
      case Some(_) => ([], Some(Raise(TypeError, "not a list of documents")))
  }

  /** `transcode(input_filename, output_filename)`: where the stream goes
      (None for standard output) and its lines, one per entry, up to the
      first entry that cannot be read. */
  function Transcode(file: InputFile, output: Option<string>, json: JsonReaders, dec: Decoding, dumps: Json -> string): (r: (Option<string>, seq<string>, Option<Failure>))
    ensures r.0 == TranscodeTarget(output)
    ensures |r.1| == |Entries(file, json, dec).0|
    ensures forall i :: 0 <= i < |r.1| ==> r.1[i] == dumps(Entries(file, json, dec).0[i])
    ensures r.2 == Entries(file, json, dec).1
  {
    var (entries, error) := Entries(file, json, dec);
    (TranscodeTarget(output), seq(|entries|, i requires 0 <= i < |entries| => dumps(entries[i])), error)
  }

  /** `detect_file_encoding(filename)`: chardet's guess, or UTF-8 when it
      has none; MacRoman for an ISO-like guess on a sample with carriage
      returns and no line feeds; Windows-1252 for any other ISO-like guess
      chardet is not confident about (confidence below 0.95), and for a
      codec Python does not know. */
  method DetectFileEncoding(detected: Option<string>, confident: bool, sample: string, known: string -> bool)
    returns (encoding: string)
    ensures known(encoding) || encoding == "windows-1252"
    ensures detected.None? ==> encoding == (if known("utf-8") then "utf-8" else "windows-1252")
    ensures detected.Some? && StartsWith(detected.value, "ISO") && '\r' in sample && '\n' !in sample ==>
      encoding == (if known("macroman") then "macroman" else "windows-1252")
    ensures detected.Some? && StartsWith(detected.value, "ISO") && !('\r' in sample && '\n' !in sample) && !confident ==>
      encoding == "windows-1252"
    ensures detected.Some? && !(StartsWith(detected.value, "ISO") && (('\r' in sample && '\n' !in sample) || !confident)) ==>
      encoding == (if known(detected.value) then detected.value else "windows-1252")
  {
    if detected.None? {
      encoding := "utf-8";
    } else {
      encoding := detected.value;
      if StartsWith(encoding, "ISO") {
        if '\r' in sample && '\n' !in sample {
          encoding := "macroman";
        } else if !confident {
          encoding := "windows-1252";
        }
      }
    }
    if !known(encoding) {
      encoding := "windows-1252";
    }
  }

  /** `transcode`: an output name ending in `.json` gets an `s`, since the
      output is a JSON stream. */
  function OutputName(name: string): (r: string)
    ensures EndsWith(name, ".json") ==> r == name + "s" && EndsWith(r, ".jsons")
    ensures !EndsWith(name, ".json") ==> r == name
    ensures !EndsWith(r, ".json")
  {
    if EndsWith(name, ".json") then
      var r := name + "s";
      assert r[|r| - 6..] == name[|name| - 5..] + "s";
      assert r[|r| - 5..][4] == 's';
      r
    else name
  }

  /** Renaming twice is renaming once. */
  lemma OutputNameIdempotent(name: string)
    ensures OutputName(OutputName(name)) == OutputName(name)
  {
  }

  /** The output of json_stream.py's `transcode`: standard output when no
      name is given. */
  function TranscodeTarget(output: Option<string>): (r: Option<string>)
    ensures r.None? <==> output.None?
    ensures r.Some? ==> r.value == OutputName(output.value)
    ensures r.Some? ==> !EndsWith(r.value, ".json") && OutputName(r.value) == r.value
  {
    if output.None? then None
    else
      OutputNameIdempotent(output.value);
      Some(OutputName(output.value))
  }
}
