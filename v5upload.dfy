/** The upload and download helpers of the v5 API (v5_upload.py): the
    batch generator, the projection of a document onto the fields that may
    be uploaded, and the paging of `iterate_docs`. */
module V5Upload {
  import opened Wrappers
  import opened PyText
  import opened JsonValue
  import opened RestCommon
  import Upload
  import Sorting

  /** The fields, and the only fields, every uploaded document carries. */
  const UPLOAD_FIELDS: seq<string> := ["title", "text", "metadata"]
  const BATCH_SIZE: nat := 1000

  /** `_batches(iterable, size)` as written and as Python 3.7 and later run
      it: the generator yields the chunks, and then `next(batchiter)` on the
      exhausted iterator raises StopIteration inside the generator, which
      PEP 479 turns into RuntimeError. A loop over it therefore never ends
      normally. */
  function BatchesAsWritten<T>(xs: seq<T>, size: int): (r: (seq<seq<T>>, Failure))
    ensures r.1.kind == ValueError || r.1.kind == RuntimeError
    ensures size > 0 ==> Upload.Flatten(r.0) == xs
  {
    if size < 0 then ([], Raise(ValueError, "Stop argument for islice() must be None or an integer: 0 <= x <= sys.maxsize."))
    else
      var batches := if size > 0 then (Upload.ChunksConcat(xs, size); Upload.Chunks(xs, size)) else [];
      (batches, Raise(RuntimeError, "generator raised StopIteration"))
  }

  /** The generator loop of `_batches`, step by step. */
  method GenerateBatches<T>(xs: seq<T>, size: int) returns (yielded: seq<seq<T>>, error: Failure)
    ensures (yielded, error) == BatchesAsWritten(xs, size)
  {
    yielded := [];
    if size < 0 {
      return yielded, Raise(ValueError, "Stop argument for islice() must be None or an integer: 0 <= x <= sys.maxsize.");
    }
    var pos := 0;
    while size > 0 && pos < |xs|
      invariant 0 <= pos <= |xs|
      invariant yielded + Upload.Chunks(xs[pos..], size as nat) == Upload.Chunks(xs, size as nat)
      decreases |xs| - pos
    {
      var next := if pos + size <= |xs| then pos + size else |xs|;
      Upload.ChunksFrom(xs, pos, size as nat);
      yielded := yielded + [xs[pos..next]];
      pos := next;
    }
    if size > 0 {
      assert xs[pos..] == [];
      assert yielded + [] == yielded;
    }
    return yielded, Raise(RuntimeError, "generator raised StopIteration");
  }

  /** Whatever the input, iterating `_batches` ends in an exception, even
      after every item was yielded; upload.py's `batches`, whose generator
      simply returns, ends normally with the same batches. */
  lemma BatchesAlwaysRaise<T>(xs: seq<T>, size: int)
    requires size > 0
    ensures BatchesAsWritten(xs, size).1.kind == RuntimeError
    ensures Upload.Batches(xs, size).Ok?
    ensures BatchesAsWritten(xs, size).0 == Upload.Batches(xs, size).value
    ensures Upload.Flatten(BatchesAsWritten(xs, size).0) == xs
  {
    Upload.ChunksConcat(xs, size);
  }

  /** The first of `fields` missing from `doc`, if any. */
  function FirstMissing(doc: map<string, Json>, fields: seq<string>): (r: Option<nat>)
    ensures r.None? <==> forall i :: 0 <= i < |fields| ==> fields[i] in doc
    ensures r.Some? ==>
      && r.value < |fields| && fields[r.value] !in doc
      && forall i :: 0 <= i < r.value ==> fields[i] in doc
    decreases |fields|
  {
    if fields == [] then None
    else if fields[0] !in doc then Some(0)
    else
      match FirstMissing(doc, fields[1..])
      case None => None
      case Some(i) => Some(i + 1)
  }

  function MissingFieldError(doc: map<string, Json>, field: string): Failure {
    Failure(ValueError, JList([JObject(doc), JStr(field)]))
  }

  /** `_simplify_doc(doc)`: the three upload fields copied from the
      document, or a ValueError naming the first one it lacks. */
  function Simplified(doc: map<string, Json>): (r: Result<map<string, Json>, Failure>)
    ensures r.Ok? <==> forall i :: 0 <= i < |UPLOAD_FIELDS| ==> UPLOAD_FIELDS[i] in doc
    ensures r.Ok? ==> r.value.Keys == {"title", "text", "metadata"}
    ensures r.Ok? ==> forall k :: k in r.value ==> k in doc && r.value[k] == doc[k]
    ensures r.Err? ==>
      && FirstMissing(doc, UPLOAD_FIELDS).Some?
      && r.error == MissingFieldError(doc, UPLOAD_FIELDS[FirstMissing(doc, UPLOAD_FIELDS).value])
  {
    match FirstMissing(doc, UPLOAD_FIELDS)
    case Some(i) => Err(MissingFieldError(doc, UPLOAD_FIELDS[i]))
    case None =>
      assert UPLOAD_FIELDS[0] == "title" && UPLOAD_FIELDS[1] == "text" && UPLOAD_FIELDS[2] == "metadata";
      Ok(map["title" := doc["title"], "text" := doc["text"], "metadata" := doc["metadata"]])
  }

  /** `_simplify_doc`: `simplified` is filled field by field. */
  method SimplifyDoc(doc: map<string, Json>) returns (r: Result<map<string, Json>, Failure>)
    ensures r == Simplified(doc)
  {
    var simplified: map<string, Json> := map[];
    for i := 0 to |UPLOAD_FIELDS|
      invariant forall j :: 0 <= j < i ==> UPLOAD_FIELDS[j] in doc
      invariant simplified == map j | 0 <= j < i :: UPLOAD_FIELDS[j] := doc[UPLOAD_FIELDS[j]]
    {
      var field := UPLOAD_FIELDS[i];
      if field !in doc {
        return Err(MissingFieldError(doc, field));
      }
      simplified := simplified[field := doc[field]];
    }
    assert UPLOAD_FIELDS[0] == "title" && UPLOAD_FIELDS[1] == "text" && UPLOAD_FIELDS[2] == "metadata";
    assert simplified.Keys == {"title", "text", "metadata"};
    assert simplified == map["title" := doc["title"], "text" := doc["text"], "metadata" := doc["metadata"]];
    return Ok(simplified);
  }

  /** Python's `int` values, with `True` and `False` counting as 1 and 0. */
  function PyInt(j: Json): (r: Option<int>)
    ensures r.Some? <==> j.JInt? || j.JBool?
    ensures j.JInt? ==> r == Some(j.i)
  {
    match j
    case JInt(i) => Some(i)
    case JBool(b) => Some(if b then 1 else 0)
    case _ => None
  }

  /** Expanded mode: each field of `unnecessary` present is deleted and
      everything else is kept. */
  function Expanded(doc: map<string, Json>, unnecessary: seq<string>): (r: map<string, Json>)
    ensures r.Keys == doc.Keys - set f | f in unnecessary
    ensures forall k :: k in r ==> r[k] == doc[k]
  {
    map k | k in doc && k !in unnecessary :: doc[k]
  }

  /** The dict case of expanded mode holds one field at a time. */
  lemma ExpandedStep(doc: map<string, Json>, unnecessary: seq<string>)
    requires unnecessary != []
    ensures Expanded(doc - {unnecessary[0]}, unnecessary[1..]) == Expanded(doc, unnecessary)
    ensures unnecessary[0] !in doc ==> Expanded(doc, unnecessary[1..]) == Expanded(doc, unnecessary)
  {
    var rest := unnecessary[1..];
    assert forall k :: k in unnecessary <==> k == unnecessary[0] || k in rest;
    assert Expanded(doc - {unnecessary[0]}, rest).Keys == Expanded(doc, unnecessary).Keys;
  }

  /** Python's `field in doc` for a document of a page: a key of a dict,
      an item of a list, a substring of a string; any other value raises
      TypeError. */
  function HasField(doc: Json, field: string): (r: Result<bool, Failure>)
    ensures r.Err? <==> !(doc.JObject? || doc.JList? || doc.JStr?)
    ensures r.Err? ==> r.error.kind == TypeError
    ensures doc.JObject? ==> r == Ok(field in doc.fields)
    ensures doc.JList? ==> r == Ok(JStr(field) in doc.items)
    ensures doc.JStr? ==> r == Ok(Contains(doc.s, field))
  {
    match doc
    case JObject(fields) => Ok(field in fields)
    case JList(items) => Ok(JStr(field) in items)
    case JStr(text) => Ok(Contains(text, field))
    case _ => Err(Raise(TypeError, "argument of type is not iterable"))
  }

  /** Python's `del doc[field]` on a field found in the document: a dict
      loses the key; a list or a string raises TypeError. */
  function DeleteField(doc: Json, field: string): (r: Result<Json, Failure>)
    ensures doc.JObject? ==> r == Ok(JObject(doc.fields - {field}))
    ensures !doc.JObject? ==> r.Err? && r.error.kind == TypeError
  {
    if doc.JObject? then Ok(JObject(doc.fields - {field}))
    else Err(Raise(TypeError, "object does not support item deletion"))
  }

  /** Expanded mode on any document: a dict becomes its expanded form; any
      other document is yielded unchanged exactly when none of the fields
      is found in it, and otherwise the first found (or the first
      membership test, on a value that is neither a dict, a list nor a
      string) raises TypeError. */
  function ExpandDoc(doc: Json, unnecessary: seq<string>): (r: Result<Json, Failure>)
    ensures doc.JObject? ==> r == Ok(JObject(Expanded(doc.fields, unnecessary)))
    ensures !doc.JObject? ==> (r.Ok? <==> forall i :: 0 <= i < |unnecessary| ==> HasField(doc, unnecessary[i]) == Ok(false))
    ensures !doc.JObject? && r.Ok? ==> r.value == doc
    ensures r.Err? ==> r.error.kind == TypeError
    decreases |unnecessary|
  {
    if unnecessary == [] then
      assert doc.JObject? ==> Expanded(doc.fields, unnecessary) == doc.fields;
      Ok(doc)
    else
      var found :- HasField(doc, unnecessary[0]);
      var next :- if found then DeleteField(doc, unnecessary[0]) else Ok(doc);
      if doc.JObject? then
        ExpandedStep(doc.fields, unnecessary);
        ExpandDoc(next, unnecessary[1..])
      else
        ExpandDoc(next, unnecessary[1..])
  }

  /** The `del doc[field]` loop of expanded mode, which changes the
      document in place. */
  method DropFields(doc: Json, unnecessary: seq<string>) returns (r: Result<Json, Failure>)
    ensures r == ExpandDoc(doc, unnecessary)
  {
    var d := doc;
    for i := 0 to |unnecessary|
      invariant ExpandDoc(d, unnecessary[i..]) == ExpandDoc(doc, unnecessary)
    {
      assert unnecessary[i..][0] == unnecessary[i] && unnecessary[i..][1..] == unnecessary[i + 1..];
      var found := HasField(d, unnecessary[i]);
      if found.Err? {
        return Err(found.error);
      }
      if found.value {
        var next := DeleteField(d, unnecessary[i]);
        if next.Err? {
          return Err(next.error);
        }
        d := next.value;
      }
    }
    return Ok(d);
  }

  /** Concise mode: `{field: doc[field] for field in concise}`, a KeyError
      for the first field the document lacks. */
  function Concise(doc: map<string, Json>, concise: seq<string>): (r: Result<map<string, Json>, Failure>)
    ensures r.Ok? <==> forall i :: 0 <= i < |concise| ==> concise[i] in doc
    ensures r.Ok? ==> r.value.Keys == set f | f in concise
    ensures r.Ok? ==> forall k :: k in r.value ==> k in doc && r.value[k] == doc[k]
    ensures r.Err? ==>
      && FirstMissing(doc, concise).Some?
      && r.error == Failure(KeyError, JStr(concise[FirstMissing(doc, concise).value]))
  {
    match FirstMissing(doc, concise)
    case Some(i) => Err(Failure(KeyError, JStr(concise[i])))
    case None => Ok(map k | k in doc && k in concise :: doc[k])
  }

  /** Which fields `iterate_docs` keeps: `UNNECESSARY_FIELDS`,
      `CONCISE_FIELDS` and `DOCS_PER_BATCH` are not defined in v5_upload.py,
      so they are given here. */
  datatype Fields = Fields(expanded: bool, unnecessary: seq<string>, concise: seq<string>)

  /** The document `iterate_docs` yields for one document of a page. In
      expanded mode a dict loses the unnecessary fields, and any other
      document is yielded as it is unless one of them is found in it. In
      concise mode a dict gives its concise fields; any other document
      gives `{}` when there are no concise fields and otherwise fails on
      the first `doc[field]`. */
  function Select(doc: Json, f: Fields): (r: Result<Json, Failure>)
    ensures f.expanded && doc.JObject? ==> r == Ok(JObject(Expanded(doc.fields, f.unnecessary)))
    ensures f.expanded && !doc.JObject? ==>
      && (r.Ok? <==> forall i :: 0 <= i < |f.unnecessary| ==> HasField(doc, f.unnecessary[i]) == Ok(false))
      && (r.Ok? ==> r.value == doc)
      && (r.Err? ==> r.error.kind == TypeError)
    ensures !f.expanded && doc.JObject? ==> (r.Ok? <==> Concise(doc.fields, f.concise).Ok?)
    ensures !f.expanded && doc.JObject? && r.Ok? ==> r.value == JObject(Concise(doc.fields, f.concise).value)
    ensures !f.expanded && doc.JObject? && r.Err? ==> r.error == Concise(doc.fields, f.concise).error
    ensures !f.expanded && !doc.JObject? ==>
      && (r.Ok? <==> f.concise == [])
      && (r.Ok? ==> r.value == JObject(map[]))
      && (r.Err? ==> r.error.kind == TypeError)
  {
    if f.expanded then ExpandDoc(doc, f.unnecessary)
    else if doc.JObject? then
      var d :- Concise(doc.fields, f.concise);
      Ok(JObject(d))
    else if f.concise == [] then Ok(JObject(map[]))
    else Err(Raise(TypeError, "indices must be integers"))
  }

  function Selector(f: Fields): Json -> Result<Json, Failure> {
    doc => Select(doc, f)
  }

  /** The calls a paging loop makes: the count, then one request per
      page. */
  datatype DocsCall = CountDocs | GetMetadata | GetPage(offset: int, limit: int)

  /** What a paging loop produced before it stopped, and the exception it
      stopped with, if any. */
  datatype DocStream<T> = DocStream(calls: seq<DocsCall>, docs: seq<T>, error: Option<Failure>)

  /** What the loop over the documents of one page makes of them, up to
      the first that fails. */
  function PageDocs<T>(docs: seq<Json>, sel: Json -> Result<T, Failure>): (r: (seq<T>, Option<Failure>))
    decreases |docs|
  {
    if docs == [] then ([], None)
    else
      var earlier := PageDocs(docs[..|docs| - 1], sel);
      if earlier.1.Some? then earlier
      else
        match sel(docs[|docs| - 1])
        case Err(e) => (earlier.0, Some(e))
        case Ok(d) => (earlier.0 + [d], None)
  }

  /** `for doc in docs` over a page's `result`: a list gives its items, a
      dict its keys and a string its characters, each as a string; any
      other value raises TypeError. The keys of a dict are taken in
      sorted order. */
  ghost function PageItems(result: Json): (r: Result<seq<Json>, Failure>)
    ensures result.JList? ==> r == Ok(result.items)
    ensures result.JObject? ==> r == Ok(StrList(Sorting.SortedKeys(result.fields.Keys)))
    ensures result.JObject? ==>
      && |r.value| == |result.fields|
      && forall i :: 0 <= i < |r.value| ==> r.value[i].JStr? && r.value[i].s in result.fields
    ensures result.JStr? ==> r.Ok? && |r.value| == |result.s|
    ensures result.JStr? ==> forall i :: 0 <= i < |result.s| ==> r.value[i] == JStr([result.s[i]])
    ensures r.Err? <==> !(result.JList? || result.JObject? || result.JStr?)
    ensures r.Err? ==> r.error.kind == TypeError
  {
    match result
    case JList(items) => Ok(items)
    case JObject(fields) =>
      Sorting.SortedKeysMembers(fields.Keys);
      Ok(StrList(Sorting.SortedKeys(fields.Keys)))
    case JStr(text) => Ok(seq(|text|, i requires 0 <= i < |text| => JStr([text[i]])))
    case _ => Err(Raise(TypeError, "object is not iterable"))
  }

  /** The iteration over a page's `result`, step by step. */
  method IteratePage(result: Json) returns (r: Result<seq<Json>, Failure>)
    ensures r == PageItems(result)
  {
    match result
    case JList(items) => r := Ok(items);
    case JObject(fields) =>
      var keys := Sorting.SortKeys(fields.Keys);
      r := Ok(StrList(keys));
    case JStr(text) =>
      var chars: seq<Json> := [];
      for i := 0 to |text|
        invariant chars == seq(i, k requires 0 <= k < i => JStr([text[k]]))
      {
        chars := chars + [JStr([text[i]])];
      }
      r := Ok(chars);
    case _ => r := Err(Raise(TypeError, "object is not iterable"));
  }

  /** One page: the request, its `result` and its documents. */
  ghost function Page<T>(offset: int, limit: nat, page: int -> Result<Json, Failure>, sel: Json -> Result<T, Failure>): DocStream<T> {
    var call := [GetPage(offset, limit)];
    match page(offset)
    case Err(e) => DocStream(call, [], Some(e))
    case Ok(response) =>
      match Subscript(response, "result")
      case Err(e) => DocStream(call, [], Some(e))
      case Ok(result) =>
        match PageItems(result)
        case Err(e) => DocStream(call, [], Some(e))
        case Ok(docs) =>
          var (out, error) := PageDocs(docs, sel);
          DocStream(call, out, error)
  }

  /** The pages at the given offsets, up to the first that fails. */
  ghost function Pages<T>(offsets: seq<int>, limit: nat, page: int -> Result<Json, Failure>, sel: Json -> Result<T, Failure>): DocStream<T>
    decreases |offsets|
  {
    if offsets == [] then DocStream([], [], None)
    else
      var earlier := Pages(offsets[..|offsets| - 1], limit, page, sel);
      if earlier.error.Some? then earlier
      else
        var p := Page(offsets[|offsets| - 1], limit, page, sel);
        DocStream(earlier.calls + p.calls, earlier.docs + p.docs, p.error)
  }

  /** `iterate_docs(client, expanded)`: the document count, then
      `range(0, num_docs, DOCS_PER_BATCH)` of pages. */
  ghost function IterateDocsOutcome(count: Result<Json, Failure>, pageSize: nat, page: int -> Result<Json, Failure>, f: Fields): (r: DocStream<Json>)
    ensures r.calls != [] && r.calls[0] == CountDocs
    ensures pageSize == 0 ==> r.docs == [] && r.error.Some?
    ensures count.Err? ==> r == DocStream([CountDocs], [], Some(count.error))
  {
    var first := [CountDocs];
    if count.Err? then DocStream(first, [], Some(count.error))
    else
      match Subscript(count.value, "total_count")
      case Err(e) => DocStream(first, [], Some(e))
      case Ok(total) =>
        if PyInt(total).None? then DocStream(first, [], Some(Raise(TypeError, "object cannot be interpreted as an integer")))
        else if pageSize == 0 then DocStream(first, [], Some(Raise(ValueError, "range() arg 3 must not be zero")))
        else
          var rest := Pages(Range(0, PyInt(total).value, pageSize), pageSize, page, Selector(f));
          DocStream(first + rest.calls, rest.docs, rest.error)
  }

  /** Once a document fails, the rest of the page is not looked at. */
  lemma {:induction false} PageDocsStop<T>(docs: seq<Json>, sel: Json -> Result<T, Failure>, k: nat)
    requires k <= |docs| && PageDocs(docs[..k], sel).1.Some?
    ensures PageDocs(docs, sel) == PageDocs(docs[..k], sel)
    decreases |docs| - k
  {
    if k < |docs| {
      assert docs[..|docs| - 1][..k] == docs[..k];
      PageDocsStop(docs[..|docs| - 1], sel, k);
    } else {
      assert docs[..k] == docs;
    }
  }

  /** Once a page fails, no later page is requested. */
  lemma {:induction false} PagesStop<T>(offsets: seq<int>, limit: nat, page: int -> Result<Json, Failure>,
                                       sel: Json -> Result<T, Failure>, k: nat)
    requires k <= |offsets| && Pages(offsets[..k], limit, page, sel).error.Some?
    ensures Pages(offsets, limit, page, sel) == Pages(offsets[..k], limit, page, sel)
    decreases |offsets| - k
  {
    if k < |offsets| {
      assert offsets[..|offsets| - 1][..k] == offsets[..k];
      PagesStop(offsets[..|offsets| - 1], limit, page, sel, k);
    } else {
      assert offsets[..k] == offsets;
    }
  }

  /** The inner loop over the documents of a page. */
  method SelectPage<T>(docs: seq<Json>, sel: Json -> Result<T, Failure>) returns (out: seq<T>, error: Option<Failure>)
    ensures (out, error) == PageDocs(docs, sel)
  {
    out := [];
    for i := 0 to |docs|
      invariant PageDocs(docs[..i], sel) == (out, None)
    {
      assert docs[..i + 1][..i] == docs[..i];
      var d := sel(docs[i]);
      if d.Err? {
        PageDocsStop(docs, sel, i + 1);
        return out, Some(d.error);
      }
      out := out + [d.value];
    }
    assert docs[..|docs|] == docs;
    error := None;
  }

  /** One page, step by step. */
  method FetchPage<T>(offset: int, limit: nat, page: int -> Result<Json, Failure>, sel: Json -> Result<T, Failure>)
    returns (p: DocStream<T>)
    ensures p == Page(offset, limit, page, sel)
  {
    var call := [GetPage(offset, limit)];
    var response := page(offset);
    if response.Err? {
      return DocStream(call, [], Some(response.error));
    }
    var result := Subscript(response.value, "result");
    if result.Err? {
      return DocStream(call, [], Some(result.error));
    }
    var docs := IteratePage(result.value);
    if docs.Err? {
      return DocStream(call, [], Some(docs.error));
    }
    var out, error := SelectPage(docs.value, sel);
    return DocStream(call, out, error);
  }

  /** The loop over the offsets, each page in turn. */
  method FetchPages<T>(offsets: seq<int>, limit: nat, page: int -> Result<Json, Failure>, sel: Json -> Result<T, Failure>)
    returns (s: DocStream<T>)
    ensures s == Pages(offsets, limit, page, sel)
  {
    var docs: seq<T> := [];
    var requested: seq<DocsCall> := [];
    for i := 0 to |offsets|
      invariant Pages(offsets[..i], limit, page, sel) == DocStream(requested, docs, None)
    {
      assert offsets[..i + 1][..i] == offsets[..i];
      var p := FetchPage(offsets[i], limit, page, sel);
      requested := requested + p.calls;
      docs := docs + p.docs;
      if p.error.Some? {
        PagesStop(offsets, limit, page, sel, i + 1);
        return DocStream(requested, docs, p.error);
      }
    }
    assert offsets[..|offsets|] == offsets;
    return DocStream(requested, docs, None);
  }

  /** `iterate_docs`, step by step: the loop over the offsets. */
  method IterateDocs(count: Result<Json, Failure>, pageSize: nat, page: int -> Result<Json, Failure>, f: Fields)
    returns (s: DocStream<Json>)
    ensures s == IterateDocsOutcome(count, pageSize, page, f)
  {
    var calls := [CountDocs];
    if count.Err? {
      return DocStream(calls, [], Some(count.error));
    }
    var total := Subscript(count.value, "total_count");
    if total.Err? {
      return DocStream(calls, [], Some(total.error));
    }
    var numDocs := PyInt(total.value);
    if numDocs.None? {
      return DocStream(calls, [], Some(Raise(TypeError, "object cannot be interpreted as an integer")));
    }
    if pageSize == 0 {
      return DocStream(calls, [], Some(Raise(ValueError, "range() arg 3 must not be zero")));
    }
    var rest := FetchPages(Range(0, numDocs.value, pageSize), pageSize, page, Selector(f));
    return DocStream(calls + rest.calls, rest.docs, rest.error);
  }

  /** The page requests of a run without error, in order. */
  function Requests(offsets: seq<int>, limit: nat): seq<DocsCall>
    decreases |offsets|
  {
    if offsets == [] then [] else Requests(offsets[..|offsets| - 1], limit) + [GetPage(offsets[|offsets| - 1], limit)]
  }

  lemma {:induction false} RequestsAt(offsets: seq<int>, limit: nat)
    ensures |Requests(offsets, limit)| == |offsets|
    ensures forall i :: 0 <= i < |offsets| ==> Requests(offsets, limit)[i] == GetPage(offsets[i], limit)
    decreases |offsets|
  {
    if offsets != [] {
      var init := offsets[..|offsets| - 1];
      RequestsAt(init, limit);
      assert forall i :: 0 <= i < |init| ==> init[i] == offsets[i];
    }
  }

  /** Without error, one request per page, each asking for one page. */
  lemma {:induction false} PagesRequests<T>(offsets: seq<int>, limit: nat, page: int -> Result<Json, Failure>,
                                           sel: Json -> Result<T, Failure>)
    requires Pages(offsets, limit, page, sel).error.None?
    ensures Pages(offsets, limit, page, sel).calls == Requests(offsets, limit)
    decreases |offsets|
  {
    if offsets != [] {
      PagesRequests(offsets[..|offsets| - 1], limit, page, sel);
    }
  }

  /** A run that ends without error asks for the count, then for the pages
      at offsets 0, k, 2k, … strictly below the count, each of `k`
      documents, and no more. */
  lemma PagesAtOffsets(count: Result<Json, Failure>, pageSize: nat, page: int -> Result<Json, Failure>, f: Fields)
    requires IterateDocsOutcome(count, pageSize, page, f).error.None?
    ensures var s := IterateDocsOutcome(count, pageSize, page, f);
      var total := PyInt(count.value.fields["total_count"]).value;
      var n := |s.calls| - 1;
      && pageSize > 0
      && s.calls[0] == CountDocs
      && (forall i :: 1 <= i < |s.calls| ==> s.calls[i] == GetPage((i - 1) * pageSize, pageSize) && (i - 1) * pageSize < total)
      && n * pageSize >= total
  {
    var total := PyInt(count.value.fields["total_count"]).value;
    var offsets := Range(0, total, pageSize);
    PagesRequests(offsets, pageSize, page, Selector(f));
    RequestsAt(offsets, pageSize);
    RangeElements(0, total, pageSize);
  }

  /** The loop over a page keeps the documents in order: the `i`-th
      output is made of the `i`-th document, and without error every
      document gives one. */
  lemma {:induction false} PageDocsInOrder<T>(docs: seq<Json>, sel: Json -> Result<T, Failure>)
    ensures |PageDocs(docs, sel).0| <= |docs|
    ensures forall i :: 0 <= i < |PageDocs(docs, sel).0| ==> sel(docs[i]) == Ok(PageDocs(docs, sel).0[i])
    ensures PageDocs(docs, sel).1.None? ==> |PageDocs(docs, sel).0| == |docs|
    ensures PageDocs(docs, sel).1.Some? ==>
      var n := |PageDocs(docs, sel).0|;
      n < |docs| && sel(docs[n]) == Err(PageDocs(docs, sel).1.value)
    decreases |docs|
  {
    if docs != [] {
      var init := docs[..|docs| - 1];
      PageDocsInOrder(init, sel);
      assert forall i :: 0 <= i < |init| ==> init[i] == docs[i];
    }
  }

  /** A yielded document made of a dict has exactly the expanded or the
      concise fields, with the page document's values. Made of any other
      document, it is that document, in which no unnecessary field was
      found, or it is `{}` when there are no concise fields. */
  lemma SelectedFields(doc: Json, f: Fields, out: Json)
    requires Selector(f)(doc) == Ok(out)
    ensures doc.JObject? ==> out.JObject?
    ensures doc.JObject? && f.expanded ==> out.fields.Keys == doc.fields.Keys - set u | u in f.unnecessary
    ensures doc.JObject? && !f.expanded ==> out.fields.Keys == set c | c in f.concise
    ensures doc.JObject? ==> forall k :: k in out.fields ==> k in doc.fields && out.fields[k] == doc.fields[k]
    ensures !doc.JObject? && f.expanded ==>
      && out == doc
      && (f.unnecessary == [] || doc.JStr? || doc.JList?)
      && (doc.JStr? ==> forall u :: u in f.unnecessary ==> !Contains(doc.s, u))
      && (doc.JList? ==> forall u :: u in f.unnecessary ==> JStr(u) !in doc.items)
    ensures !doc.JObject? && !f.expanded ==> f.concise == [] && out == JObject(map[])
  {
    if !doc.JObject? && f.expanded {
      forall u | u in f.unnecessary ensures HasField(doc, u) == Ok(false) {
        var i :| 0 <= i < |f.unnecessary| && f.unnecessary[i] == u;
      }
      if f.unnecessary != [] {
        assert HasField(doc, f.unnecessary[0]) == Ok(false);
      }
    }
  }
}
