/**
 * The `lumi-api` command-line tool of cli.py: how `_read_params` layers its
 * three parameter sources, what `_print_csv` writes, and the order of the
 * steps of `_main` together with the exit status `main` gives.
 *
 * What `json.load`, the token file, the connection, the prompt and the
 * request do is given as inputs; the tool's effects are a list of events.
 */
module Cli {
  import opened Wrappers
  import opened PyText
  import opened JsonValue
  import opened RestCommon
  import Sorting
  import Urls

  /** A JSON parameter source: not given, or given together with what
      `json.load` made of its text (None for text that is not JSON). */
  datatype JsonSource = Absent | Given(parsed: Option<Json>)

  /** The key and value `dict.update` takes from element `i` of a list it is
      given: a list of two items whose first is a string, or a string of two
      characters (two one-character strings). Another length is a
      ValueError; a value that is not a sequence, or a list or dict as key,
      is a TypeError. A two-key dict and a non-string key are refused with
      TypeError, since the parameters are keyed by strings. */
  function UpdatePair(i: nat, item: Json): (r: Result<(string, Json), Failure>)
    ensures r.Ok? <==> (item.JList? && |item.items| == 2 && item.items[0].JStr?) || (item.JStr? && |item.s| == 2)
    ensures r.Ok? && item.JList? ==> r.value == (item.items[0].s, item.items[1])
    ensures r.Ok? && item.JStr? ==> r.value == (item.s[..1], JStr(item.s[1..]))
    ensures (item.JList? && |item.items| != 2) || (item.JStr? && |item.s| != 2) || (item.JObject? && |item.fields| != 2) ==>
      r.Err? && r.error.kind == ValueError
    ensures r.Err? ==> r.error.kind in {ValueError, TypeError}
  {
    var wrongLength := (n: nat) =>
      Err(Raise(ValueError, "dictionary update sequence element #" + NatToString(i) + " has length "
                              + NatToString(n) + "; 2 is required"));
    match item
    case JList(xs) =>
      if |xs| != 2 then wrongLength(|xs|)
      else if xs[0].JStr? then Ok((xs[0].s, xs[1]))
      else Err(Raise(TypeError, "unhashable or non-string key"))
    case JStr(t) => if |t| != 2 then wrongLength(|t|) else Ok((t[..1], JStr(t[1..])))
    case JObject(fields) =>
      if |fields| != 2 then wrongLength(|fields|) else Err(Raise(TypeError, "non-string key"))
    case _ => Err(Raise(TypeError, "cannot convert dictionary update sequence element #" + NatToString(i) + " to a sequence"))
  }

  /** `d.update(items)` for a list: the pairs of the elements in order, a
      later pair replacing an earlier one with the same key, and the
      exception of the first element that is not a pair. */
  function UpdatePairs(items: seq<Json>): (r: Result<map<string, Json>, Failure>)
    ensures r.Ok? <==> forall i :: 0 <= i < |items| ==> UpdatePair(i, items[i]).Ok?
    ensures r.Err? ==> r.error.kind in {ValueError, TypeError}
    decreases |items|
  {
    if items == [] then Ok(map[])
    else
      var init := items[..|items| - 1];
      assert forall i :: 0 <= i < |init| ==> init[i] == items[i];
      match UpdatePairs(init)
      case Err(e) => Err(e)
      case Ok(earlier) =>
        match UpdatePair(|items| - 1, items[|items| - 1])
        case Err(e) => Err(e)
        case Ok((k, v)) => Ok(earlier[k := v])
  }

  /** The exception `dict.update` raises is that of the first element that
      is not a pair. */
  lemma {:induction false} UpdatePairsFirstError(items: seq<Json>) returns (i: nat)
    requires UpdatePairs(items).Err?
    ensures i < |items| && UpdatePair(i, items[i]).Err?
    ensures UpdatePairs(items).error == UpdatePair(i, items[i]).error
    ensures forall j :: 0 <= j < i ==> UpdatePair(j, items[j]).Ok?
    decreases |items|
  {
    var init := items[..|items| - 1];
    assert forall j :: 0 <= j < |init| ==> init[j] == items[j];
    if UpdatePairs(init).Err? {
      i := UpdatePairsFirstError(init);
    } else {
      i := |items| - 1;
    }
  }

  /** The keys `dict.update` adds are the keys of the pairs. */
  lemma {:induction false} UpdatePairsKeys(items: seq<Json>, k: string)
    requires UpdatePairs(items).Ok?
    ensures k in UpdatePairs(items).value <==>
      exists i :: 0 <= i < |items| && UpdatePair(i, items[i]).value.0 == k
    decreases |items|
  {
    if items != [] {
      var init := items[..|items| - 1];
      assert forall j :: 0 <= j < |init| ==> init[j] == items[j];
      UpdatePairsKeys(init, k);
      if k in UpdatePairs(items).value && UpdatePair(|items| - 1, items[|items| - 1]).value.0 != k {
        var i :| 0 <= i < |init| && UpdatePair(i, init[i]).value.0 == k;
        assert UpdatePair(i, items[i]).value.0 == k;
      }
    }
  }

  /** The value of a key is that of the last pair with that key. */
  lemma {:induction false} UpdatePairsLastWins(items: seq<Json>, i: nat)
    requires UpdatePairs(items).Ok? && i < |items|
    requires forall j :: i < j < |items| ==> UpdatePair(j, items[j]).value.0 != UpdatePair(i, items[i]).value.0
    ensures UpdatePair(i, items[i]).value.0 in UpdatePairs(items).value
    ensures UpdatePairs(items).value[UpdatePair(i, items[i]).value.0] == UpdatePair(i, items[i]).value.1
    decreases |items|
  {
    var init := items[..|items| - 1];
    assert forall j :: 0 <= j < |init| ==> init[j] == items[j];
    if i < |items| - 1 {
      UpdatePairsLastWins(init, i);
    }
  }

  /** `_read_params` raises any ValueError from reading or merging a JSON
      source again as "input is not valid JSON: ..."; a TypeError passes
      unchanged. */
  function InputError(e: Failure): (r: Failure)
    ensures r.kind == e.kind
    ensures e.kind != ValueError ==> r == e
  {
    if e.kind == ValueError && e.payload.JStr? then Raise(ValueError, "input is not valid JSON: " + e.payload.s) else e
  }

  /** What `params.update(value)` adds for one decoded source, its
      ValueError re-raised as "input is not valid JSON": a dict adds its
      entries, a list adds its pairs in order (`UpdatePairs`), an empty
      string adds nothing and a non-empty one is a sequence of
      one-character elements (ValueError); a number, a boolean or None
      is not iterable (TypeError). */
  function SourceEntries(s: JsonSource): (r: Result<map<string, Json>, Failure>)
    ensures s.Absent? ==> r == Ok(map[])
    ensures s.Given? && s.parsed.None? ==> r.Err? && r.error.kind == ValueError
    ensures s.Given? && s.parsed.Some? && s.parsed.value.JObject? ==> r == Ok(s.parsed.value.fields)
    ensures s.Given? && s.parsed.Some? && s.parsed.value.JList? ==>
      (r.Ok? <==> UpdatePairs(s.parsed.value.items).Ok?)
      && (r.Ok? ==> r.value == UpdatePairs(s.parsed.value.items).value)
      && (r.Err? ==> r.error.kind == UpdatePairs(s.parsed.value.items).error.kind)
    ensures s.Given? && s.parsed.Some? && s.parsed.value.JStr? ==>
      (r.Ok? <==> s.parsed.value.s == []) && (r.Ok? ==> r.value == map[]) && (r.Err? ==> r.error.kind == ValueError)
    ensures s.Given? && s.parsed.Some? && !(s.parsed.value.JObject? || s.parsed.value.JList? || s.parsed.value.JStr?) ==>
      r.Err? && r.error.kind == TypeError
  {
    match s
    case Absent => Ok(map[])
    case Given(None) => Err(Raise(ValueError, "input is not valid JSON"))
    case Given(Some(j)) =>
      match j
      case JObject(fields) => Ok(fields)
      case JList(items) =>
        (match UpdatePairs(items)
         case Ok(entries) => Ok(entries)
         case Err(e) => Err(InputError(e)))
      case JStr(text) =>
        if text == [] then Ok(map[])
        else Err(Raise(ValueError, "input is not valid JSON: dictionary update sequence element #0 has length 1; 2 is required"))
      case _ => Err(Raise(TypeError, "object is not iterable"))
  }

  /** A list of `[key, value]` pairs adds them as a dict would, the later
      duplicate winning. */
  lemma PairListSource(a: string, b: string, x: Json, y: Json, z: Json)
    requires a != b
    ensures SourceEntries(Given(Some(JList([JList([JStr(a), x]), JList([JStr(b), y]), JList([JStr(a), z])]))))
      == Ok(map[a := z, b := y])
  {
    var items := [JList([JStr(a), x]), JList([JStr(b), y]), JList([JStr(a), z])];
    var none: seq<Json> := [];
    assert items[..2][..1] == [items[0]] && [items[0]][..0] == none;
    assert UpdatePairs([items[0]]) == Ok(map[a := x]);
    assert UpdatePairs(items[..2]) == Ok(map[a := x][b := y]);
    assert map[a := x][b := y][a := z] == map[a := z, b := y];
  }

  /** `p.split('=', 1)[0]`. */
  function ParamKey(p: string): string {
    BeforeFirst(p, '=')
  }

  /** `p.split('=', 1)[1]`, for a `p` holding a '='. */
  function ParamValue(p: string): string
    requires '=' in p
  {
    SplitOnce(p, '=').value.1
  }

  /** No later `-p` argument has the same key as the one at `i`. */
  predicate LastWithKey(ps: seq<string>, i: nat)
    requires i < |ps|
  {
    forall j :: i < j < |ps| ==> ParamKey(ps[j]) != ParamKey(ps[i])
  }

  /** The dict comprehension over the `-p` arguments: each is split on its
      first '=' only, and an argument without '=' raises IndexError. */
  function PParams(ps: seq<string>): (r: Result<map<string, Json>, Failure>)
    ensures r.Ok? <==> forall i :: 0 <= i < |ps| ==> '=' in ps[i]
    ensures r.Err? ==> r.error.kind == IndexError
    decreases |ps|
  {
    if ps == [] then Ok(map[])
    else
      var init := ps[..|ps| - 1];
      assert forall i :: 0 <= i < |init| ==> init[i] == ps[i];
      match PParams(init)
      case Err(e) => Err(e)
      case Ok(earlier) =>
        match SplitOnce(ps[|ps| - 1], '=')
        case None => Err(Raise(IndexError, "list index out of range"))
        case Some((k, v)) => Ok(earlier[k := JStr(v)])
  }

  /** The keys of the `-p` parameters are the keys of the arguments. */
  lemma {:induction false} PParamsKeys(ps: seq<string>)
    requires PParams(ps).Ok?
    ensures forall k :: k in PParams(ps).value <==> exists i :: 0 <= i < |ps| && ParamKey(ps[i]) == k
  {
    forall i | 0 <= i < |ps|
      ensures ParamKey(ps[i]) in PParams(ps).value
    {
      PParamsKeyIn(ps, i);
    }
    forall k | k in PParams(ps).value
      ensures exists i :: 0 <= i < |ps| && ParamKey(ps[i]) == k
    {
      var i := PParamsKeyFrom(ps, k);
    }
  }

  lemma {:induction false} PParamsKeyIn(ps: seq<string>, i: nat)
    requires PParams(ps).Ok? && i < |ps|
    ensures ParamKey(ps[i]) in PParams(ps).value
    decreases |ps|
  {
    var init := ps[..|ps| - 1];
    assert PParams(init).Ok?;
    if i < |init| {
      PParamsKeyIn(init, i);
      assert init[i] == ps[i];
    }
  }

  lemma {:induction false} PParamsKeyFrom(ps: seq<string>, k: string) returns (i: nat)
    requires PParams(ps).Ok? && k in PParams(ps).value
    ensures i < |ps| && ParamKey(ps[i]) == k
    decreases |ps|
  {
    var init := ps[..|ps| - 1];
    assert PParams(init).Ok?;
    if k == ParamKey(ps[|ps| - 1]) {
      i := |ps| - 1;
    } else {
      i := PParamsKeyFrom(init, k);
      assert init[i] == ps[i];
    }
  }

  /** The value of a key is that of the last argument with that key. */
  lemma {:induction false} PParamsLastWins(ps: seq<string>, i: nat)
    requires PParams(ps).Ok?
    requires i < |ps| && '=' in ps[i] && LastWithKey(ps, i)
    ensures ParamKey(ps[i]) in PParams(ps).value
    ensures PParams(ps).value[ParamKey(ps[i])] == JStr(ParamValue(ps[i]))
    decreases |ps|
  {
    var init := ps[..|ps| - 1];
    var p := ps[|ps| - 1];
    assert forall j :: 0 <= j < |init| ==> init[j] == ps[j];
    assert PParams(ps).value == PParams(init).value[ParamKey(p) := JStr(ParamValue(p))];
    if i < |ps| - 1 {
      assert ParamKey(p) != ParamKey(ps[i]);
      assert LastWithKey(init, i);
      PParamsLastWins(init, i);
    }
  }

  /** `_read_params(input_file, json_body, p_params)` as a value: the file,
      then `-j`, then `-p`, each merged over the ones before it key by key. */
  function MergedParams(inputFile: JsonSource, jsonBody: JsonSource, ps: seq<string>)
    : (r: Result<map<string, Json>, Failure>)
    ensures SourceEntries(inputFile).Err? ==> r == Err(SourceEntries(inputFile).error)
    ensures SourceEntries(inputFile).Ok? && SourceEntries(jsonBody).Err? ==> r == Err(SourceEntries(jsonBody).error)
    ensures SourceEntries(inputFile).Ok? && SourceEntries(jsonBody).Ok? ==>
      (r.Err? <==> PParams(ps).Err?) && (r.Err? ==> r.error.kind == ValueError)
    ensures r.Ok? ==>
      var file, body, p := SourceEntries(inputFile).value, SourceEntries(jsonBody).value, PParams(ps).value;
      && (forall k :: k in r.value <==> k in file || k in body || k in p)
      && (forall k :: k in r.value ==>
            r.value[k] == if k in p then p[k] else if k in body then body[k] else file[k])
  {
    var file :- SourceEntries(inputFile);
    var body :- SourceEntries(jsonBody);
    match PParams(ps)
    case Err(_) => Err(Raise(ValueError, "--param arguments must have key=value format"))
    case Ok(p) => Ok(file + body + p)
  }

  /** `_read_params`: `params` starts empty and is updated in place from the
      file, then `-j`, then the `-p` arguments. */
  method ReadParams(inputFile: JsonSource, jsonBody: JsonSource, ps: seq<string>)
    returns (r: Result<map<string, Json>, Failure>)
    ensures r == MergedParams(inputFile, jsonBody, ps)
  {
    var params: map<string, Json> := map[];
    var fromFile := SourceEntries(inputFile);
    if fromFile.Err? {
      return Err(fromFile.error);
    }
    params := params + fromFile.value;
    var fromBody := SourceEntries(jsonBody);
    if fromBody.Err? {
      return Err(fromBody.error);
    }
    params := params + fromBody.value;
    var fromP := PParams(ps);
    if fromP.Err? {
      return Err(Raise(ValueError, "--param arguments must have key=value format"));
    }
    params := params + fromP.value;
    assert map[] + fromFile.value == fromFile.value;
    return Ok(params);
  }

  /** A `-p` argument is split on its first '=' only: the value keeps any
      further '=' and every quote. */
  lemma PParamSplitsOnFirst(key: string, value: string)
    requires '=' !in key
    ensures PParams([key + "=" + value]) == Ok(map[key := JStr(value)])
  {
    var p := key + "=" + value;
    FindCharAfter(key, '=', value);
    assert p[..|key|] == key && p[|key| + 1..] == value;
    var none: seq<string> := [];
    assert [p][..0] == none;
  }

  /** Two dict sources and well-formed `-p` arguments merge without
      error. */
  lemma MergedObjects(file: map<string, Json>, body: map<string, Json>, ps: seq<string>)
    requires PParams(ps).Ok?
    ensures MergedParams(Given(Some(JObject(file))), Given(Some(JObject(body))), ps) == Ok(file + body + PParams(ps).value)
  {
  }

  lemma ThreeKeyMerge(one: string, two: string, three: string, x1: Json, x2: Json, x3: Json,
                      y1: Json, y2: Json, z: Json)
    requires one != two && one != three && two != three
    ensures map[one := x1, two := x2, three := x3] + map[one := y1, two := y2] + map[one := z]
      == map[one := z, two := y2, three := x3]
  {
    var merged := map[one := x1, two := x2, three := x3] + map[one := y1, two := y2] + map[one := z];
    var target := map[one := z, two := y2, three := x3];
    assert merged.Keys == target.Keys;
    assert merged[one] == z && merged[two] == y2 && merged[three] == x3;
  }

  /** The layering the command-line test pins down, over any three
      distinct keys: a file `{one: x1, two: x2, three: x3}`, `-j` giving
      `{one: y1, two: y2}` and `-p one=w` give `one` the `-p` text, `two`
      the `-j` value and `three` the file value. */
  lemma ParameterMerging(one: string, two: string, three: string, x1: Json, x2: Json, x3: Json,
                         y1: Json, y2: Json, w: string)
    requires one != two && one != three && two != three && '=' !in one
    ensures MergedParams(
      Given(Some(JObject(map[one := x1, two := x2, three := x3]))),
      Given(Some(JObject(map[one := y1, two := y2]))),
      [one + "=" + w])
      == Ok(map[one := JStr(w), two := y2, three := x3])
  {
    PParamSplitsOnFirst(one, w);
    MergedObjects(map[one := x1, two := x2, three := x3], map[one := y1, two := y2], [one + "=" + w]);
    ThreeKeyMerge(one, two, three, x1, x2, x3, y1, y2, JStr(w));
  }

  /** A line of CSV output: its cells, before `str` and quoting. */
  type CsvLine = seq<Json>

  /** What one call of `_print_csv` wrote before it returned or raised. */
  datatype CsvWritten = CsvWritten(lines: seq<CsvLine>, error: Option<Failure>)

  /** The header line: the field names. */
  function HeaderLine(header: seq<string>): CsvLine {
    StrList(header)
  }

  /** `DictWriter.writerow(row)`'s cells: the row's value for each field
      name, '' for a missing one. */
  function Cells(header: seq<string>, row: map<string, Json>): (r: CsvLine)
    ensures |r| == |header|
    ensures forall i :: 0 <= i < |header| && header[i] in row ==> r[i] == row[header[i]]
    ensures forall i :: 0 <= i < |header| && header[i] !in row ==> r[i] == JStr("")
  {
    seq(|header|, i requires 0 <= i < |header| => if header[i] in row then row[header[i]] else JStr(""))
  }

  /** The lines `writerow` writes for `rows`, in order, up to the first row
      that is not a dict (AttributeError) or has a key that is not a field
      name (ValueError). */
  function CsvRows(header: seq<string>, keys: set<string>, rows: seq<Json>): (r: (seq<CsvLine>, Option<Failure>))
    ensures |r.0| <= |rows|
    ensures r.1.None? ==> |r.0| == |rows|
    decreases |rows|
  {
    if rows == [] then ([], None)
    else if !rows[0].JObject? then ([], Some(Raise(AttributeError, "object has no attribute 'keys'")))
    else if !(rows[0].fields.Keys <= keys) then ([], Some(Raise(ValueError, "dict contains fields not in fieldnames")))
    else
      var rest := CsvRows(header, keys, rows[1..]);
      ([Cells(header, rows[0].fields)] + rest.0, rest.1)
  }

  /** What `_print_csv` writes for a list of rows: IndexError for no rows,
      AttributeError when the first is not a dict, otherwise the sorted keys
      of the first row as header and then the rows. */
  ghost function CsvOutput(rows: seq<Json>): (r: CsvWritten)
    ensures r.lines != [] ==> rows != [] && rows[0].JObject?
    ensures r.error.None? ==> rows != [] && |r.lines| == |rows| + 1
  {
    if rows == [] then CsvWritten([], Some(Raise(IndexError, "list index out of range")))
    else if !rows[0].JObject? then CsvWritten([], Some(Raise(AttributeError, "object has no attribute 'keys'")))
    else
      var header := Sorting.SortedKeys(rows[0].fields.Keys);
      var body := CsvRows(header, rows[0].fields.Keys, rows);
      CsvWritten([HeaderLine(header)] + body.0, body.1)
  }

  /** CsvRows from row `k` on, one row unfolded. */
  lemma CsvRowsAt(header: seq<string>, keys: set<string>, rows: seq<Json>, k: nat)
    requires k < |rows|
    ensures CsvRows(header, keys, rows[k..]) ==
      if !rows[k].JObject? then ([], Some(Raise(AttributeError, "object has no attribute 'keys'")))
      else if !(rows[k].fields.Keys <= keys) then ([], Some(Raise(ValueError, "dict contains fields not in fieldnames")))
      else ([Cells(header, rows[k].fields)] + CsvRows(header, keys, rows[k + 1..]).0, CsvRows(header, keys, rows[k + 1..]).1)
  {
    assert rows[k..][0] == rows[k];
    assert rows[k..][1..] == rows[k + 1..];
  }

  /** CsvOutput on rows whose first row is a dict, with its sorted keys. */
  lemma CsvOutputOfRows(rows: seq<Json>, header: seq<string>)
    requires rows != [] && rows[0].JObject?
    requires header == Sorting.SortedKeys(rows[0].fields.Keys)
    ensures CsvOutput(rows) == CsvWritten([HeaderLine(header)] + CsvRows(header, rows[0].fields.Keys, rows).0,
                                          CsvRows(header, rows[0].fields.Keys, rows).1)
  {
  }

  /** The `for line in result: w.writerow(line)` loop: one line per row,
      stopping at the first row that cannot be written. */
  method WriteRows(header: seq<string>, keys: set<string>, rows: seq<Json>)
    returns (written: seq<CsvLine>, error: Option<Failure>)
    ensures (written, error) == CsvRows(header, keys, rows)
  {
    written := [];
    var i := 0;
    assert rows[0..] == rows;
    while i < |rows|
      invariant i <= |rows|
      invariant CsvRows(header, keys, rows).0 == written + CsvRows(header, keys, rows[i..]).0
      invariant CsvRows(header, keys, rows).1 == CsvRows(header, keys, rows[i..]).1
      decreases |rows| - i
    {
      CsvRowsAt(header, keys, rows, i);
      assert written + [] == written;
      if !rows[i].JObject? {
        return written, Some(Raise(AttributeError, "object has no attribute 'keys'"));
      }
      if !(rows[i].fields.Keys <= keys) {
        return written, Some(Raise(ValueError, "dict contains fields not in fieldnames"));
      }
      written := written + [Cells(header, rows[i].fields)];
      i := i + 1;
    }
    assert rows[i..] == [];
    assert CsvRows(header, keys, rows[i..]) == ([], None);
    assert written + [] == written;
    return written, None;
  }

  /** `_print_csv` on a list: the sorted keys of the first row as header,
      then the rows. */
  method WriteCsv(rows: seq<Json>) returns (w: CsvWritten)
    ensures w == CsvOutput(rows)
  {
    if rows == [] {
      return CsvWritten([], Some(Raise(IndexError, "list index out of range")));
    }
    if !rows[0].JObject? {
      return CsvWritten([], Some(Raise(AttributeError, "object has no attribute 'keys'")));
    }
    var keys := rows[0].fields.Keys;
    var header := Sorting.SortKeys(keys);
    CsvOutputOfRows(rows, header);
    var written, error := WriteRows(header, keys, rows);
    return CsvWritten([HeaderLine(header)] + written, error);
  }

  /** The header is the keys of the first row, each once, in ascending
      order. */
  lemma CsvHeader(rows: seq<Json>)
    requires rows != [] && rows[0].JObject?
    ensures var header := Sorting.SortedKeys(rows[0].fields.Keys);
      && CsvOutput(rows).lines != []
      && CsvOutput(rows).lines[0] == HeaderLine(header)
      && Sorting.StrictlySorted(header)
      && (forall k :: k in header <==> k in rows[0].fields)
  {
    Sorting.SortedKeysProperties(rows[0].fields.Keys);
  }

  /** The row loop writes every row exactly when every row is a dict whose
      keys are field names, and then line `i` is row `i`'s cells. */
  lemma {:induction false} CsvRowsComplete(header: seq<string>, keys: set<string>, rows: seq<Json>)
    ensures CsvRows(header, keys, rows).1.None? <==>
      forall i :: 0 <= i < |rows| ==> rows[i].JObject? && rows[i].fields.Keys <= keys
    ensures CsvRows(header, keys, rows).1.None? ==>
      forall i :: 0 <= i < |rows| ==> CsvRows(header, keys, rows).0[i] == Cells(header, rows[i].fields)
    decreases |rows|
  {
    if rows != [] {
      CsvRowsComplete(header, keys, rows[1..]);
      assert forall i :: 1 <= i < |rows| ==> rows[i] == rows[1..][i - 1];
    }
  }

  /** Before a row that cannot be written, all earlier rows are written, in
      order, and then the writer raises. */
  lemma {:induction false} CsvRowsStopAt(header: seq<string>, keys: set<string>, rows: seq<Json>, k: nat)
    requires k < |rows| && !(rows[k].JObject? && rows[k].fields.Keys <= keys)
    requires forall i :: 0 <= i < k ==> rows[i].JObject? && rows[i].fields.Keys <= keys
    ensures CsvRows(header, keys, rows).1.Some?
    ensures |CsvRows(header, keys, rows).0| == k
    ensures forall i :: 0 <= i < k ==> CsvRows(header, keys, rows).0[i] == Cells(header, rows[i].fields)
    decreases k
  {
    if k > 0 {
      assert forall i :: 0 <= i < |rows| - 1 ==> rows[1..][i] == rows[i + 1];
      CsvRowsStopAt(header, keys, rows[1..], k - 1);
    }
  }

  /** A list of rows is written to the end exactly when every row is a dict
      with no key outside the first row's; then there is one line per row
      after the header. */
  lemma CsvComplete(rows: seq<Json>)
    requires rows != [] && rows[0].JObject?
    ensures CsvOutput(rows).error.None? <==>
      forall i :: 0 <= i < |rows| ==> rows[i].JObject? && rows[i].fields.Keys <= rows[0].fields.Keys
    ensures CsvOutput(rows).error.None? ==>
      && |CsvOutput(rows).lines| == |rows| + 1
      && forall i :: 0 <= i < |rows| ==>
           CsvOutput(rows).lines[i + 1] == Cells(Sorting.SortedKeys(rows[0].fields.Keys), rows[i].fields)
  {
    CsvRowsComplete(Sorting.SortedKeys(rows[0].fields.Keys), rows[0].fields.Keys, rows);
  }

  /** The two-row output of the command-line test: with keys `a < b`, two
      rows with exactly those keys are written as the lines `a,b` and then
      each row's values in that order. */
  lemma CsvTwoRows(a: string, b: string, r1: map<string, Json>, r2: map<string, Json>)
    requires Sorting.Less(a, b)
    requires r1.Keys == {a, b} && r2.Keys == {a, b}
    ensures CsvOutput([JObject(r1), JObject(r2)])
      == CsvWritten([[JStr(a), JStr(b)], [r1[a], r1[b]], [r2[a], r2[b]]], None)
  {
    var rows := [JObject(r1), JObject(r2)];
    var header, keys := [a, b], {a, b};
    assert Sorting.SortedKeys(rows[0].fields.Keys) == header by {
      SortedPair(a, b);
    }
    assert CsvOutput(rows) == CsvWritten([HeaderLine(header)] + CsvRows(header, keys, rows).0, CsvRows(header, keys, rows).1) by {
      CsvOutputOfRows(rows, header);
    }
    assert CsvRows(header, keys, rows) == ([[r1[a], r1[b]], [r2[a], r2[b]]], None) by {
      TwoRowsWritten(a, b, r1, r2);
    }
    assert HeaderLine(header) == [JStr(a), JStr(b)] by {
      var line := StrList(header);
      assert |line| == 2 && line[0] == JStr(a) && line[1] == JStr(b);
    }
  }

  lemma TwoRowsWritten(a: string, b: string, r1: map<string, Json>, r2: map<string, Json>)
    requires r1.Keys == {a, b} && r2.Keys == {a, b}
    ensures CsvRows([a, b], {a, b}, [JObject(r1), JObject(r2)]) == ([[r1[a], r1[b]], [r2[a], r2[b]]], None)
  {
    var rows := [JObject(r1), JObject(r2)];
    assert rows[1..] == [JObject(r2)] && [JObject(r2)][1..] == [];
    var c1, c2 := Cells([a, b], r1), Cells([a, b], r2);
    assert c1 == [r1[a], r1[b]] && c2 == [r2[a], r2[b]];
    var lines: seq<CsvLine> := [];
    assert CsvRows([a, b], {a, b}, [JObject(r2)][1..]) == (lines, None);
    assert [c2] + lines == [c2];
    assert CsvRows([a, b], {a, b}, [JObject(r2)]) == ([c2], None);
    assert [c1] + [c2] == [c1, c2];
  }

  /** The sorted keys of a two-key dict. */
  lemma SortedPair(a: string, b: string)
    requires Sorting.Less(a, b)
    ensures Sorting.SortedKeys({a, b}) == [a, b]
  {
    assert a != b by {
      Sorting.LessIrreflexive(a);
    }
    assert Sorting.Sorted([a, b]) by {
      assert Sorting.LessEq([a, b][0], [a, b][1]);
    }
    assert multiset([a, b]) == multiset({a, b}) by {
      assert multiset([a, b]) == multiset{a, b};
      assert multiset({a, b}) == multiset{a, b};
    }
    var r := Sorting.SortedKeys({a, b});
    Sorting.SortedUnique(r, [a, b]);
  }

  /** How the two `_print_csv` functions treat a result that is not a
      list. cli.py indexes it and re-raises a TypeError as ValueError;
      v5_cli.py checks `type(result) is list` first and raises TypeError. */
  datatype CsvGuard = IndexFirst | RequireList

  /** `_print_csv(result)`. A list is written as above. Otherwise, under
      IndexFirst, a dict has no item `0` (KeyError), an empty string has
      no first character (IndexError), a non-empty string's first
      character has no `keys` (AttributeError), and a number, a boolean or
      None cannot be indexed (TypeError, re-raised as ValueError); under
      RequireList it is a TypeError. */
  ghost function PrintCsvOutput(guard: CsvGuard, result: Json): CsvWritten {
    match result
    case JList(rows) => CsvOutput(rows)
    case _ =>
      if guard == RequireList then CsvWritten([], Some(Raise(TypeError, "output not able to be displayed as CSV.")))
      else
        match result
        case JObject(_) => CsvWritten([], Some(Failure(KeyError, JInt(0))))
        case JStr(text) =>
          if text == [] then CsvWritten([], Some(Raise(IndexError, "string index out of range")))
          else CsvWritten([], Some(Raise(AttributeError, "'str' object has no attribute 'keys'")))
        case _ => CsvWritten([], Some(Raise(ValueError, "output not able to be displayed as CSV.")))
  }

  method PrintCsv(guard: CsvGuard, result: Json) returns (w: CsvWritten)
    ensures w == PrintCsvOutput(guard, result)
    ensures !result.JList? ==> w.lines == [] && w.error.Some?
    ensures !result.JList? && guard == RequireList ==> w.error.value.kind == TypeError
  {
    if result.JList? {
      w := WriteCsv(result.items);
    } else if guard == RequireList {
      w := CsvWritten([], Some(Raise(TypeError, "output not able to be displayed as CSV.")));
    } else if result.JObject? {
      w := CsvWritten([], Some(Failure(KeyError, JInt(0))));
    } else if result.JStr? && result.s == [] {
      w := CsvWritten([], Some(Raise(IndexError, "string index out of range")));
    } else if result.JStr? {
      w := CsvWritten([], Some(Raise(AttributeError, "'str' object has no attribute 'keys'")));
    } else {
      w := CsvWritten([], Some(Raise(ValueError, "output not able to be displayed as CSV.")));
    }
  }

  /** The part of the command line both tools share: the verb, the path,
      the parameter sources and `--csv`. */
  datatype Command = Command(
    verb: Verb, path: string, params: seq<string>, jsonBody: Option<string>, inputFile: Option<string>, csv: bool)

  /** What the world answers once connected: `json.load`/`json.loads`, the
      answer to the delete prompt, and what the request returns or
      raises. */
  datatype Replies = Replies(loads: string -> Option<Json>, answer: string, response: Result<Json, Failure>)

  /** What a tool does, in order. */
  datatype Event =
    | SaveToken(savedToken: string, domain: string)
    | Connect(url: string, token: Option<string>, tokenFile: Option<string>, userAgentSuffix: Option<string>)
    | Prompt(question: string)
    | Request(verb: Verb, path: string, params: map<string, Json>)
    | PrintJson(result: Json)
    | PrintCsvLines(lines: seq<CsvLine>)
    | Report(error: Failure)

  /** The delete prompt goes on for '', 'y' and 'Y' only. */
  predicate Confirmed(answer: string) {
    answer == "" || answer == "y" || answer == "Y"
  }

  function Source(text: Option<string>, loads: string -> Option<Json>): JsonSource {
    if text.None? then Absent else Given(loads(text.value))
  }

  /** The parameters `_read_params` makes of the command line. */
  function ArgParams(c: Command, loads: string -> Option<Json>): Result<map<string, Json>, Failure> {
    MergedParams(Source(c.inputFile, loads), Source(c.jsonBody, loads), c.params)
  }

  /** The call `func(path, **params)`: every verb takes `self` and `path`
      before its keyword parameters, so a parameter named `path` or `self`
      is a second value for one of them and the call raises TypeError
      before any request is sent. */
  function CallArguments(params: map<string, Json>): (r: Result<map<string, Json>, Failure>)
    ensures r.Ok? <==> "path" !in params && "self" !in params
    ensures r.Ok? ==> r.value == params
    ensures r.Err? ==> r.error.kind == TypeError
  {
    if "path" in params then Err(Raise(TypeError, "got multiple values for argument 'path'"))
    else if "self" in params then Err(Raise(TypeError, "got multiple values for argument 'self'"))
    else Ok(params)
  }

  /** The keyword arguments the verb is called with, or the exception
      reading the parameters or making the call raises. */
  function RequestParams(c: Command, loads: string -> Option<Json>): (r: Result<map<string, Json>, Failure>)
    ensures r.Ok? <==> ArgParams(c, loads).Ok? && "path" !in ArgParams(c, loads).value && "self" !in ArgParams(c, loads).value
    ensures r.Ok? ==> r.value == ArgParams(c, loads).value
    ensures ArgParams(c, loads).Err? ==> r == ArgParams(c, loads)
  {
    match ArgParams(c, loads)
    case Err(e) => Err(e)
    case Ok(params) => CallArguments(params)
  }

  predicate Requested(events: seq<Event>) {
    exists i :: 0 <= i < |events| && events[i].Request?
  }

  /** The last event of a run, when there is one, reports an exception. */
  predicate EndsInReport(events: seq<Event>) {
    events != [] && events[|events| - 1].Report?
  }

  function DeletePrompt(c: Command): seq<Event> {
    if c.verb == Delete then [Prompt("confirm delete " + c.path + "? [Y/n] ")] else []
  }

  /** The events and exit status from the request on. */
  ghost function AfterRequest(guard: CsvGuard, c: Command, r: Replies): (seq<Event>, int) {
    if r.response.Err? then ([Report(r.response.error)], 1)
    else if !c.csv then ([PrintJson(r.response.value)], 0)
    else
      var out := PrintCsvOutput(guard, r.response.value);
      if out.error.Some? then ([PrintCsvLines(out.lines), Report(out.error.value)], 1)
      else ([PrintCsvLines(out.lines)], 0)
  }

  /** The events and exit status once connected: the delete prompt,
      `_read_params`, the request and the output. */
  ghost function AfterConnect(guard: CsvGuard, c: Command, r: Replies): (seq<Event>, int) {
    if c.verb == Delete && !Confirmed(r.answer) then (DeletePrompt(c), 0)
    else
      match RequestParams(c, r.loads)
      case Err(e) => (DeletePrompt(c) + [Report(e)], 1)
      case Ok(params) =>
        var rest := AfterRequest(guard, c, r);
        (DeletePrompt(c) + [Request(c.verb, c.path, params)] + rest.0, rest.1)
  }

  /** `_main` after `connect`, step by step. */
  method RunConnected(guard: CsvGuard, c: Command, r: Replies) returns (events: seq<Event>, status: int)
    ensures (events, status) == AfterConnect(guard, c, r)
  {
    events := [];
    if c.verb == Delete {
      events := [Prompt("confirm delete " + c.path + "? [Y/n] ")];
      if !Confirmed(r.answer) {
        return events, 0;
      }
    }
    var params := ReadParams(Source(c.inputFile, r.loads), Source(c.jsonBody, r.loads), c.params);
    if params.Err? {
      return events + [Report(params.error)], 1;
    }
    var call := CallArguments(params.value);
    if call.Err? {
      return events + [Report(call.error)], 1;
    }
    events := events + [Request(c.verb, c.path, params.value)];
    var rest;
    rest, status := RunRequest(guard, c, r);
    events := events + rest;
  }

  method RunRequest(guard: CsvGuard, c: Command, r: Replies) returns (events: seq<Event>, status: int)
    ensures (events, status) == AfterRequest(guard, c, r)
  {
    if r.response.Err? {
      return [Report(r.response.error)], 1;
    }
    if c.csv {
      var written := PrintCsv(guard, r.response.value);
      if written.error.Some? {
        return [PrintCsvLines(written.lines), Report(written.error.value)], 1;
      }
      return [PrintCsvLines(written.lines)], 0;
    }
    return [PrintJson(r.response.value)], 0;
  }

  lemma AfterRequestStatus(guard: CsvGuard, c: Command, r: Replies)
    ensures AfterRequest(guard, c, r).0 != []
    ensures AfterRequest(guard, c, r).1 == 0 || AfterRequest(guard, c, r).1 == 1
    ensures AfterRequest(guard, c, r).1 == 1 <==> EndsInReport(AfterRequest(guard, c, r).0)
    ensures forall e :: e in AfterRequest(guard, c, r).0 ==> !e.Request?
  {
  }

  /** Once connected, the exit status is 0 or 1, and 1 exactly when the
      run ends by reporting an exception. */
  lemma AfterConnectStatus(guard: CsvGuard, c: Command, r: Replies)
    ensures AfterConnect(guard, c, r).0 != []
    ensures AfterConnect(guard, c, r).1 == 0 || AfterConnect(guard, c, r).1 == 1
    ensures AfterConnect(guard, c, r).1 == 1 <==> EndsInReport(AfterConnect(guard, c, r).0)
  {
    if !(c.verb == Delete && !Confirmed(r.answer)) && RequestParams(c, r.loads).Ok? {
      AfterRequestStatus(guard, c, r);
      var rest := AfterRequest(guard, c, r).0;
      var pre := DeletePrompt(c) + [Request(c.verb, c.path, RequestParams(c, r.loads).value)];
      assert AfterConnect(guard, c, r).0 == pre + rest;
      assert (pre + rest)[|pre + rest| - 1] == rest[|rest| - 1];
    }
  }

  /** Once connected, a request is made exactly when a delete is confirmed
      and the parameters are read without error, and it carries those
      parameters. */
  lemma AfterConnectRequest(guard: CsvGuard, c: Command, r: Replies)
    ensures Requested(AfterConnect(guard, c, r).0) <==> (c.verb == Delete ==> Confirmed(r.answer)) && RequestParams(c, r.loads).Ok?
    ensures forall i :: 0 <= i < |AfterConnect(guard, c, r).0| && AfterConnect(guard, c, r).0[i].Request? ==>
      && RequestParams(c, r.loads).Ok?
      && AfterConnect(guard, c, r).0[i] == Request(c.verb, c.path, RequestParams(c, r.loads).value)
  {
    var after := AfterConnect(guard, c, r).0;
    if (c.verb == Delete ==> Confirmed(r.answer)) && RequestParams(c, r.loads).Ok? {
      AfterRequestStatus(guard, c, r);
      var req := Request(c.verb, c.path, RequestParams(c, r.loads).value);
      assert after == DeletePrompt(c) + [req] + AfterRequest(guard, c, r).0;
      assert after[|DeletePrompt(c)|] == req;
      forall i | 0 <= i < |after| && after[i].Request? ensures after[i] == req {
      }
    }
  }

  /** Parameters that read without error but name `path` or `self` end
      the run with a TypeError and no request. */
  lemma KeywordClash(guard: CsvGuard, c: Command, r: Replies)
    requires (c.verb == Delete ==> Confirmed(r.answer)) && ArgParams(c, r.loads).Ok?
    requires "path" in ArgParams(c, r.loads).value || "self" in ArgParams(c, r.loads).value
    ensures AfterConnect(guard, c, r).1 == 1
    ensures !Requested(AfterConnect(guard, c, r).0)
    ensures var events := AfterConnect(guard, c, r).0;
      events == DeletePrompt(c) + [events[|events| - 1]] && events[|events| - 1].Report? && events[|events| - 1].error.kind == TypeError
  {
  }

  /** A delete that is not confirmed ends after the prompt, with status 0
      and no request. */
  lemma DeclinedDelete(guard: CsvGuard, c: Command, r: Replies)
    requires c.verb == Delete && !Confirmed(r.answer)
    ensures AfterConnect(guard, c, r) == ([Prompt("confirm delete " + c.path + "? [Y/n] ")], 0)
    ensures !Requested(AfterConnect(guard, c, r).0)
  {
  }

  /** After a request that returned, the result is printed as JSON, or
      written as CSV with status 1 exactly when the writer raised. */
  lemma RequestOutput(guard: CsvGuard, c: Command, r: Replies)
    requires (c.verb == Delete ==> Confirmed(r.answer)) && RequestParams(c, r.loads).Ok? && r.response.Ok?
    ensures var (events, status) := AfterConnect(guard, c, r);
      && (!c.csv ==> status == 0 && events[|events| - 1] == PrintJson(r.response.value))
      && (c.csv ==>
            var out := PrintCsvOutput(guard, r.response.value);
            && (status == 0 <==> out.error.None?)
            && events[|events| - 1] == if out.error.None? then PrintCsvLines(out.lines) else Report(out.error.value))
  {
    var after := AfterConnect(guard, c, r).0;
    var rest := AfterRequest(guard, c, r).0;
    assert after == DeletePrompt(c) + [Request(c.verb, c.path, RequestParams(c, r.loads).value)] + rest;
    assert after[|after| - 1] == rest[|rest| - 1];
  }

  /** The command line of `lumi-api` (cli.py). */
  datatype Args = Args(baseUrl: string, token: Option<string>, saveToken: bool, command: Command)

  /** Whether saving the token and connecting raise, and the replies after
      that. */
  datatype World = World(saveError: Option<Failure>, connectError: Option<Failure>, replies: Replies)

  /** `not args.token` is false: a token was given and is not empty. */
  predicate HasToken(token: Option<string>) {
    token.Some? && token.value != []
  }

  /** The token guard, the parsing of the base URL for the token's domain,
      the token saving and the connection all went through. */
  predicate Connected(args: Args, w: World) {
    (!args.saveToken || (HasToken(args.token) && Urls.UrlParse(args.baseUrl).Ok? && w.saveError.None?))
    && w.connectError.None?
  }

  /** The token save, when asked for and a token is given. */
  function Saved(args: Args): seq<Event> {
    if args.saveToken && HasToken(args.token) then [SaveToken(args.token.value, Urls.UrlSplit(args.baseUrl).netloc)] else []
  }

  function ConnectEvent(args: Args): Event {
    Connect(args.baseUrl, args.token, None, None)
  }

  /** The events and exit status of `main()`: `_main` with every exception
      reported and turned into exit status 1, and a declined delete ending
      with status 0. */
  ghost function Outcome(args: Args, w: World): (r: (seq<Event>, int))
    ensures r.0 != []
    ensures r.0[0].SaveToken? || r.0[0].Connect? || r.0[0].Report?
    ensures r.0[0].SaveToken? ==> args.saveToken
  {
    if args.saveToken && !HasToken(args.token) then
      ([Report(Raise(GenericException, "error: no token provided"))], 1)
    else if args.saveToken && Urls.UrlParse(args.baseUrl).Err? then
      ([Report(Raise(ValueError, Urls.UrlParse(args.baseUrl).error))], 1)
    else if args.saveToken && w.saveError.Some? then (Saved(args) + [Report(w.saveError.value)], 1)
    else if w.connectError.Some? then (Saved(args) + [ConnectEvent(args)] + [Report(w.connectError.value)], 1)
    else
      var rest := AfterConnect(IndexFirst, args.command, w.replies);
      (Saved(args) + [ConnectEvent(args)] + rest.0, rest.1)
  }

  /** `main()`, step by step. */
  method Run(args: Args, w: World) returns (events: seq<Event>, status: int)
    ensures (events, status) == Outcome(args, w)
  {
    events := [];
    if args.saveToken {
      if !HasToken(args.token) {
        return [Report(Raise(GenericException, "error: no token provided"))], 1;
      }
      var parsed := Urls.UrlParse(args.baseUrl);
      if parsed.Err? {
        return [Report(Raise(ValueError, parsed.error))], 1;
      }
      events := [SaveToken(args.token.value, Urls.UrlSplit(args.baseUrl).netloc)];
      if w.saveError.Some? {
        return events + [Report(w.saveError.value)], 1;
      }
    }
    events := events + [Connect(args.baseUrl, args.token, None, None)];
    if w.connectError.Some? {
      return events + [Report(w.connectError.value)], 1;
    }
    var rest;
    rest, status := RunConnected(IndexFirst, args.command, w.replies);
    events := events + rest;
  }

  /** `--save-token` without `--token` fails before anything is saved or
      connected, with exit status 1. */
  lemma SaveTokenNeedsToken(args: Args, w: World)
    requires args.saveToken && !HasToken(args.token)
    ensures Outcome(args, w).1 == 1
    ensures forall e :: e in Outcome(args, w).0 ==> e.Report?
  {
  }

  /** With `--save-token` and a token, the token is saved first, under the
      network location of the base URL; a base URL `urlparse` refuses ends
      the run before anything is saved. */
  lemma SaveTokenFirst(args: Args, w: World)
    requires args.saveToken && HasToken(args.token)
    ensures Urls.UrlParse(args.baseUrl).Ok? ==>
      Outcome(args, w).0[0] == SaveToken(args.token.value, Urls.UrlSplit(args.baseUrl).netloc)
    ensures Urls.UrlParse(args.baseUrl).Err? ==>
      Outcome(args, w) == ([Report(Raise(ValueError, "Invalid IPv6 URL"))], 1)
  {
  }

  /** A failed token guard, token save or connection ends the run with the
      exception reported, status 1 and no request. */
  lemma OutcomeNotConnected(args: Args, w: World)
    requires !Connected(args, w)
    ensures Outcome(args, w).1 == 1 && EndsInReport(Outcome(args, w).0)
    ensures forall e :: e in Outcome(args, w).0 ==> !e.Request?
  {
    var pre, f := FailedOutcome(args, w);
    ReportedLast(pre, f);
  }

  /** Before a failed connection there are at most the token save and the
      connection attempt, then the report of the failure. */
  lemma FailedOutcome(args: Args, w: World) returns (pre: seq<Event>, f: Failure)
    requires !Connected(args, w)
    ensures Outcome(args, w) == (pre + [Report(f)], 1)
    ensures forall e :: e in pre ==> !e.Request?
  {
    assert forall e :: e in Saved(args) ==> e.SaveToken?;
    if args.saveToken && !HasToken(args.token) {
      pre, f := [], Raise(GenericException, "error: no token provided");
      assert pre + [Report(f)] == [Report(f)];
    } else if args.saveToken && Urls.UrlParse(args.baseUrl).Err? {
      pre, f := [], Raise(ValueError, Urls.UrlParse(args.baseUrl).error);
      assert pre + [Report(f)] == [Report(f)];
    } else if args.saveToken && w.saveError.Some? {
      pre, f := Saved(args), w.saveError.value;
      assert Outcome(args, w) == (Saved(args) + [Report(w.saveError.value)], 1);
    } else {
      pre, f := Saved(args) + [ConnectEvent(args)], w.connectError.value;
      assert Outcome(args, w) == (Saved(args) + [ConnectEvent(args)] + [Report(w.connectError.value)], 1);
      assert forall e :: e in pre ==> e in Saved(args) || e.Connect?;
    }
  }

  lemma ReportedLast(pre: seq<Event>, f: Failure)
    requires forall e :: e in pre ==> !e.Request?
    ensures EndsInReport(pre + [Report(f)])
    ensures forall e :: e in pre + [Report(f)] ==> !e.Request?
  {
  }

  /** A connected run is the token save, the connection, then the rest. */
  lemma OutcomeConnected(args: Args, w: World)
    requires Connected(args, w)
    ensures Outcome(args, w).0 == Saved(args) + [ConnectEvent(args)] + AfterConnect(IndexFirst, args.command, w.replies).0
    ensures Outcome(args, w).1 == AfterConnect(IndexFirst, args.command, w.replies).1
  {
  }

  /** The exit status is 0 or 1, and it is 1 exactly when the run ends by
      reporting an exception. */
  lemma ExitStatus(args: Args, w: World)
    ensures Outcome(args, w).1 == 0 || Outcome(args, w).1 == 1
    ensures Outcome(args, w).1 == 1 <==> EndsInReport(Outcome(args, w).0)
  {
    if Connected(args, w) {
      OutcomeConnected(args, w);
      AfterConnectStatus(IndexFirst, args.command, w.replies);
      ReportAfter(Saved(args) + [ConnectEvent(args)], AfterConnect(IndexFirst, args.command, w.replies).0);
    } else {
      OutcomeNotConnected(args, w);
    }
  }

  /** A request is made exactly when the token guard, saving and connecting
      went through, a delete is confirmed and the parameters are read
      without error; it carries those parameters and follows the
      connection. */
  lemma RequestMade(args: Args, w: World)
    ensures Requested(Outcome(args, w).0) <==>
      && Connected(args, w)
      && (args.command.verb == Delete ==> Confirmed(w.replies.answer))
      && RequestParams(args.command, w.replies.loads).Ok?
    ensures forall i :: 0 <= i < |Outcome(args, w).0| && Outcome(args, w).0[i].Request? ==>
      && Outcome(args, w).0[i] == Request(args.command.verb, args.command.path, RequestParams(args.command, w.replies.loads).value)
      && |Saved(args)| < i && Outcome(args, w).0[|Saved(args)|] == ConnectEvent(args)
  {
    if !Connected(args, w) {
      OutcomeNotConnected(args, w);
    } else {
      RequestMadeConnected(args, w);
    }
  }

  lemma RequestMadeConnected(args: Args, w: World)
    requires Connected(args, w)
    ensures Requested(Outcome(args, w).0) <==>
      && (args.command.verb == Delete ==> Confirmed(w.replies.answer))
      && RequestParams(args.command, w.replies.loads).Ok?
    ensures forall i :: 0 <= i < |Outcome(args, w).0| && Outcome(args, w).0[i].Request? ==>
      && Outcome(args, w).0[i] == Request(args.command.verb, args.command.path, RequestParams(args.command, w.replies.loads).value)
      && |Saved(args)| < i && Outcome(args, w).0[|Saved(args)|] == ConnectEvent(args)
  {
    OutcomeConnected(args, w);
    AfterConnectRequest(IndexFirst, args.command, w.replies);
    var pre := Saved(args) + [ConnectEvent(args)];
    assert forall e :: e in pre ==> !e.Request?;
    RequestsAfter(pre, AfterConnect(IndexFirst, args.command, w.replies).0);
  }

  /** A run ends by reporting when its non-empty last part does. */
  lemma ReportAfter(pre: seq<Event>, rest: seq<Event>)
    requires rest != []
    ensures EndsInReport(pre + rest) <==> EndsInReport(rest)
  {
    assert (pre + rest)[|pre + rest| - 1] == rest[|rest| - 1];
  }

  /** Behind a prefix without requests, the requests are those of the rest. */
  lemma RequestsAfter(pre: seq<Event>, after: seq<Event>)
    requires pre != [] && forall e :: e in pre ==> !e.Request?
    ensures Requested(pre + after) <==> Requested(after)
    ensures forall i :: 0 <= i < |pre + after| && (pre + after)[i].Request? ==>
      |pre| <= i && (pre + after)[i] == after[i - |pre|] && (pre + after)[|pre| - 1] == pre[|pre| - 1]
  {
    var events := pre + after;
    if Requested(after) {
      var i :| 0 <= i < |after| && after[i].Request?;
      assert events[|pre| + i] == after[i];
    }
    forall i | 0 <= i < |events| && events[i].Request? ensures |pre| <= i && events[i] == after[i - |pre|] {
    }
  }
}
