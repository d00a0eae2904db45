/** The `lumi-upload` script of the v4 API (upload.py): cutting a document
    stream into batches, reading the `--readers` option, choosing the API
    URL, and the calls `upload_stream` makes. */
module Upload {
  import opened Wrappers
  import opened PyText
  import opened JsonValue
  import opened RestCommon

  /** The two API URLs of upload.py. */
  const ROOT_URL: string := "https://api.luminoso.com/v4"
  const LOCAL_URL: string := "http://localhost:5000/v4"

  /** The number of documents `upload_stream` sends per batch. */
  const BATCH_SIZE: nat := 1000

  /** The consecutive groups of `size` items of `xs`, the last one possibly
      shorter. `islice(sourceiter, 0)` is empty at once, so a size of 0
      gives no batch at all. */
  function Chunks<T>(xs: seq<T>, size: nat): (r: seq<seq<T>>)
    ensures size == 0 ==> r == []
    ensures |r| <= |xs|
    decreases |xs|
  {
    if size == 0 || xs == [] then []
    else if |xs| <= size then [xs]
    else [xs[..size]] + Chunks(xs[size..], size)
  }

  function Flatten<T>(bs: seq<seq<T>>): seq<T>
    decreases |bs|
  {
    if bs == [] then [] else bs[0] + Flatten(bs[1..])
  }

  /** `batches(iterable, size)`, consumed batch by batch: a negative size
      makes `islice` raise ValueError; otherwise the batches are the
      chunks of the input. */
  function Batches<T>(xs: seq<T>, size: int): (r: Result<seq<seq<T>>, Failure>)
    ensures r.Err? <==> size < 0
    ensures r.Err? ==> r.error.kind == ValueError
    ensures r.Ok? && xs != [] && size > 0 ==> r.value != [] && r.value[0] == Take(xs, size)
  {
    if size < 0 then Err(Raise(ValueError, "Stop argument for islice() must be None or an integer: 0 <= x <= sys.maxsize."))
    else Ok(Chunks(xs, size))
  }

  /** Concatenating the batches gives back the input, in order. */
  lemma {:induction false} ChunksConcat<T>(xs: seq<T>, size: nat)
    requires size > 0
    ensures Flatten(Chunks(xs, size)) == xs
    decreases |xs|
  {
    if xs != [] && |xs| > size {
      ChunksConcat(xs[size..], size);
      assert xs == xs[..size] + xs[size..];
    }
  }

  /** Every batch is non-empty and holds at most `size` items, and every
      batch but the last holds exactly `size`. */
  lemma {:induction false} ChunksSizes<T>(xs: seq<T>, size: nat)
    ensures forall i :: 0 <= i < |Chunks(xs, size)| ==> 0 < |Chunks(xs, size)[i]| <= size
    ensures forall i :: 0 <= i < |Chunks(xs, size)| - 1 ==> |Chunks(xs, size)[i]| == size
    decreases |xs|
  {
    if size > 0 && |xs| > size {
      ChunksSizes(xs[size..], size);
      var r := Chunks(xs, size);
      assert r == [xs[..size]] + Chunks(xs[size..], size);
      assert forall i :: 1 <= i < |r| ==> r[i] == Chunks(xs[size..], size)[i - 1];
    }
  }

  /** There are `ceil(|xs| / size)` batches: none for no input, and
      otherwise as many as make the last one non-empty. */
  lemma {:induction false} ChunksCount<T>(xs: seq<T>, size: nat)
    requires size > 0
    ensures Chunks(xs, size) == [] <==> xs == []
    ensures |Chunks(xs, size)| > 0 ==> (|Chunks(xs, size)| - 1) * size < |xs| <= |Chunks(xs, size)| * size
    decreases |xs|
  {
    if xs != [] && |xs| > size {
      var n := |Chunks(xs[size..], size)|;
      ChunksCount(xs[size..], size);
      assert (n + 1) * size == n * size + size;
    }
  }

  /** The first batch starting at `pos` is the next `size` items. */
  lemma ChunksFrom<T>(xs: seq<T>, pos: nat, size: nat)
    requires size > 0 && pos < |xs|
    ensures var next := if pos + size <= |xs| then pos + size else |xs|;
      Chunks(xs[pos..], size) == [xs[pos..next]] + Chunks(xs[next..], size)
  {
    var next := if pos + size <= |xs| then pos + size else |xs|;
    if pos + size < |xs| {
      assert xs[pos..][..size] == xs[pos..next];
      assert xs[pos..][size..] == xs[next..];
    } else {
      assert xs[pos..] == xs[pos..next];
      assert xs[next..] == [];
    }
  }

  /** `batches`: each round slices the next `size` items off the shared
      iterator; the generator ends when the slice has no first item. */
  method BatchesOf<T>(xs: seq<T>, size: int) returns (r: Result<seq<seq<T>>, Failure>)
    ensures r == Batches(xs, size)
  {
    if size < 0 {
      return Err(Raise(ValueError, "Stop argument for islice() must be None or an integer: 0 <= x <= sys.maxsize."));
    }
    var batches: seq<seq<T>> := [];
    var pos := 0;
    while size > 0 && pos < |xs|
      invariant 0 <= pos <= |xs|
      invariant batches + Chunks(xs[pos..], size as nat) == Chunks(xs, size as nat)
      decreases |xs| - pos
    {
      var next := if pos + size <= |xs| then pos + size else |xs|;
      ChunksFrom(xs, pos, size as nat);
      batches := batches + [xs[pos..next]];
      pos := next;
    }
    if size == 0 {
      assert batches == [];
    } else {
      assert xs[pos..] == [];
      assert batches + [] == batches;
    }
    return Ok(batches);
  }

  /** `item.split('=', 1)` of one `--readers` item. */
  function ReaderItem(item: string): (r: Result<(string, string), Failure>)
    ensures r.Ok? <==> '=' in item
    ensures r.Ok? ==> item == r.value.0 + "=" + r.value.1 && '=' !in r.value.0
    ensures r.Err? ==> r.error.kind == ValueError
  {
    match SplitOnce(item, '=')
    case None => Err(Raise(ValueError, "You entered " + item + " as a reader, but it should have the form 'lang=reader.name'"))
    case Some((lang, name)) => Ok((lang, name))
  }

  /** The `reader_dict` filled from the items in order: the first item
      without '=' raises ValueError, and a later language overwrites an
      earlier one. */
  function ReaderEntries(items: seq<string>): (r: Result<map<string, string>, Failure>)
    decreases |items|
  {
    if items == [] then Ok(map[])
    else
      match ReaderEntries(items[..|items| - 1])
      case Err(e) => Err(e)
      case Ok(earlier) =>
        match ReaderItem(items[|items| - 1])
        case Err(e) => Err(e)
        case Ok((lang, name)) => Ok(earlier[lang := name])
  }

  /** The `--readers` option: absent or empty gives no readers; otherwise
      it is split on ','. */
  function ReaderDict(readers: Option<string>): Result<map<string, string>, Failure> {
    if readers.None? || readers.value == [] then Ok(map[]) else ReaderEntries(Split(readers.value, ','))
  }

  /** The reader dict is read without error exactly when every item holds
      a '='; otherwise the error is a ValueError about the first item
      without one. */
  lemma ReaderEntriesError(items: seq<string>)
    ensures ReaderEntries(items).Ok? <==> forall i :: 0 <= i < |items| ==> '=' in items[i]
    ensures ReaderEntries(items).Err? ==> exists i ::
      && 0 <= i < |items| && '=' !in items[i]
      && (forall j :: 0 <= j < i ==> '=' in items[j])
      && ReaderEntries(items).error == ReaderItem(items[i]).error
  {
    ReaderEntriesOk(items);
    if ReaderEntries(items).Err? {
      var i := ReaderEntriesFirstBad(items);
    }
  }

  /** The readers parse exactly when every item holds '='. */
  lemma {:induction false} ReaderEntriesOk(items: seq<string>)
    ensures ReaderEntries(items).Ok? <==> forall i :: 0 <= i < |items| ==> '=' in items[i]
    decreases |items|
  {
    if items != [] {
      var init := items[..|items| - 1];
      assert forall i :: 0 <= i < |init| ==> init[i] == items[i];
      ReaderEntriesOk(init);
    }
  }

  /** A failed parse fails at the first item without '=', with that
      item's error. */
  lemma {:induction false} ReaderEntriesFirstBad(items: seq<string>) returns (i: nat)
    requires ReaderEntries(items).Err?
    ensures i < |items| && '=' !in items[i]
    ensures forall j :: 0 <= j < i ==> '=' in items[j]
    ensures ReaderEntries(items).error == ReaderItem(items[i]).error
    decreases |items|
  {
    var init := items[..|items| - 1];
    assert forall k :: 0 <= k < |init| ==> init[k] == items[k];
    if ReaderEntries(init).Err? {
      i := ReaderEntriesFirstBad(init);
    } else {
      ReaderEntriesOk(init);
      i := |items| - 1;
    }
  }

  /** No later item names the same language as the one at `i`. */
  predicate LastForLanguage(items: seq<string>, i: nat)
    requires i < |items|
  {
    forall j :: i < j < |items| ==> BeforeFirst(items[j], '=') != BeforeFirst(items[i], '=')
  }

  /** The languages of the dict are those of the items, and each maps to
      the reader of the last item naming it. */
  lemma {:induction false} ReaderEntriesLastWins(items: seq<string>, i: nat)
    requires ReaderEntries(items).Ok?
    requires i < |items| && LastForLanguage(items, i)
    ensures '=' in items[i]
    ensures BeforeFirst(items[i], '=') in ReaderEntries(items).value
    ensures ReaderEntries(items).value[BeforeFirst(items[i], '=')] == SplitOnce(items[i], '=').value.1
    decreases |items|
  {
    ReaderEntriesError(items);
    var init := items[..|items| - 1];
    var last := items[|items| - 1];
    assert forall j :: 0 <= j < |init| ==> init[j] == items[j];
    if i < |items| - 1 {
      assert BeforeFirst(last, '=') != BeforeFirst(items[i], '=');
      assert LastForLanguage(init, i);
      ReaderEntriesLastWins(init, i);
    }
  }

  /** Every language in the dict comes from an item. */
  lemma {:induction false} ReaderEntriesKeys(items: seq<string>)
    requires ReaderEntries(items).Ok?
    ensures forall lang :: lang in ReaderEntries(items).value <==>
      exists i :: 0 <= i < |items| && BeforeFirst(items[i], '=') == lang
    decreases |items|
  {
    if items != [] {
      var init := items[..|items| - 1];
      var last := items[|items| - 1];
      assert forall i :: 0 <= i < |init| ==> init[i] == items[i];
      ReaderEntriesKeys(init);
      assert ReaderEntries(items).value == ReaderEntries(init).value[BeforeFirst(last, '=') := SplitOnce(last, '=').value.1];
      forall lang | lang in ReaderEntries(items).value
        ensures exists i :: 0 <= i < |items| && BeforeFirst(items[i], '=') == lang
      {
        if lang != BeforeFirst(last, '=') {
          var i :| 0 <= i < |init| && BeforeFirst(init[i], '=') == lang;
          assert BeforeFirst(items[i], '=') == lang;
        } else {
          assert BeforeFirst(items[|items| - 1], '=') == lang;
        }
      }
    }
  }

  /** Once an item fails, the later items change nothing. */
  lemma {:induction false} ReaderEntriesStop(items: seq<string>, k: nat)
    requires k <= |items| && ReaderEntries(items[..k]).Err?
    ensures ReaderEntries(items) == ReaderEntries(items[..k])
    decreases |items| - k
  {
    if k < |items| {
      var init := items[..|items| - 1];
      assert init[..k] == items[..k];
      ReaderEntriesStop(init, k);
    } else {
      assert items[..k] == items;
    }
  }

  /** The loop of `main` over the `--readers` items. */
  method ParseReaders(readers: Option<string>) returns (r: Result<map<string, string>, Failure>)
    ensures r == ReaderDict(readers)
  {
    var readerDict: map<string, string> := map[];
    if readers.None? || readers.value == [] {
      return Ok(readerDict);
    }
    var items := Split(readers.value, ',');
    for i := 0 to |items|
      invariant ReaderEntries(items[..i]) == Ok(readerDict)
    {
      assert items[..i + 1][..i] == items[..i];
      var item := items[i];
      if '=' !in item {
        ReaderEntriesStop(items, i + 1);
        return Err(ReaderItem(item).error);
      }
      var (lang, name) := ReaderItem(item).value;
      readerDict := readerDict[lang := name];
    }
    assert items[..|items|] == items;
    return Ok(readerDict);
  }

  /** `--local` replaces whatever `--api-url` says by LOCAL_URL. */
  function ApiUrl(apiUrl: string, local: bool): (url: string)
    ensures local ==> url == LOCAL_URL
    ensures !local ==> url == apiUrl
  {
    if local then LOCAL_URL else apiUrl
  }

  /** The calls `upload_stream` makes on the client. */
  datatype UploadCall =
    | ConnectTo(server: string)
    | CreateProject(path: string, name: string)
    | FindProjects(path: string, name: string)
    | OpenProject(path: string)
    | UploadDocs(counter: nat, docs: seq<Json>, readers: map<string, string>)
    | Recalculate(recalcReaders: map<string, string>)
    | WaitForJob(job: Json)

  /** What the server answers: connecting, creating, finding projects, and
      the recalculation job. */
  datatype Server = Server(
    connectError: Option<Failure>,
    created: Result<Json, Failure>,
    found: Result<Json, Failure>,
    recalculated: Result<Json, Failure>)

  datatype Uploaded = Uploaded(calls: seq<UploadCall>, error: Option<Failure>)

  /** `len(projects) == 0` and `projects[0]` for the value `get` returned:
      None when it is empty, the first record of a list, a KeyError for the
      integer key `0` of a dict, and a TypeError for anything else. */
  function FirstProject(projects: Json): (r: Result<Option<Json>, Failure>)
    ensures projects.JList? ==> r == Ok(if projects.items == [] then None else Some(projects.items[0]))
  {
    match projects
    case JList(items) => Ok(if items == [] then None else Some(items[0]))
    case JObject(fields) => if fields == map[] then Ok(None) else Err(Failure(KeyError, JInt(0)))
    case JStr(s) => if s == [] then Ok(None) else Err(Raise(TypeError, "string indices must be integers"))
    case _ => Err(Raise(TypeError, "object has no len()"))
  }

  /** `record['project_id']`, and the string concatenation it takes part
      in, which only a string survives. */
  function ProjectId(record: Json): (r: Result<string, Failure>)
    ensures r.Ok? <==> record.JObject? && "project_id" in record.fields && record.fields["project_id"].JStr?
    ensures r.Ok? ==> JStr(r.value) == record.fields["project_id"]
  {
    var id :- Subscript(record, "project_id");
    if id.JStr? then Ok(id.s) else Err(Raise(TypeError, "cannot concatenate 'str' and non-str objects"))
  }

  /** The project `upload_stream` uploads to: a new one, or in append mode
      the first one with the name (None when there is none). */
  function Locate(append: bool, s: Server): Result<Option<string>, Failure> {
    if !append then
      var info :- s.created;
      var id :- ProjectId(info);
      Ok(Some(id))
    else
      var projects :- s.found;
      var first :- FirstProject(projects);
      if first.None? then Ok(None)
      else
        var id :- ProjectId(first.value);
        Ok(Some(id))
  }

  function LocateCall(append: bool, account: string, projname: string): UploadCall {
    if append then FindProjects("/projects/" + account, projname) else CreateProject("/projects/" + account, projname)
  }

  /** One upload call per batch, numbered from 1. */
  function Uploads(bs: seq<seq<Json>>, readers: map<string, string>): (r: seq<UploadCall>)
    decreases |bs|
  {
    if bs == [] then [] else Uploads(bs[..|bs| - 1], readers) + [UploadDocs(|bs|, bs[|bs| - 1], readers)]
  }

  /** The public methods of the v4 client (v4_client.py), which is the
      `LuminosoClient` upload.py imports from the package. */
  const V4_METHODS: set<string> := {
    "connect", "save_token", "get", "post", "put", "patch", "delete",
    "post_data", "put_data", "patch_data", "change_path", "get_raw", "save_to_file"}

  /** The public methods of client.py's client, whose `upload` and
      `wait_for` upload.py was written for. */
  const CLIENT_METHODS: set<string> := {
    "connect", "get", "post", "put", "patch", "delete", "post_data", "put_data",
    "patch_data", "change_path", "documentation", "keepalive", "upload", "wait_for", "get_raw"}

  /** Looking up a method the client does not have. */
  function NoAttribute(name: string): Failure {
    Raise(AttributeError, "'LuminosoClient' object has no attribute '" + name + "'")
  }

  /** The recalculation at the end, unless staging, on a client with
      `methods`: the job is waited for with `wait_for`. */
  function FinishOn(methods: set<string>, stage: bool, readers: map<string, string>, s: Server): (r: Uploaded)
    ensures stage <==> r.calls == []
    ensures !stage ==> r.calls[0] == Recalculate(readers)
    ensures r.error.None? <==> stage || (s.recalculated.Ok? && "wait_for" in methods)
  {
    if stage then Uploaded([], None)
    else if s.recalculated.Err? then Uploaded([Recalculate(readers)], Some(s.recalculated.error))
    else if "wait_for" !in methods then Uploaded([Recalculate(readers)], Some(NoAttribute("wait_for")))
    else Uploaded([Recalculate(readers), WaitForJob(s.recalculated.value)], None)
  }

  /** `upload_stream(stream, server, account, projname, reader_dict,
      append=…, stage=…)` on a client class with `methods`, as the calls it
      makes and the exception it ends with. */
  function UploadOutcomeOn(methods: set<string>, stream: seq<Json>, server: string, account: string, projname: string,
                           readers: map<string, string>, append: bool, stage: bool, s: Server): (u: Uploaded)
    ensures u.calls != [] && u.calls[0] == ConnectTo(server)
    ensures s.connectError.Some? ==> u == Uploaded([ConnectTo(server)], s.connectError)
    ensures s.connectError.None? && Locate(append, s).Err? ==>
      u == Uploaded([ConnectTo(server), LocateCall(append, account, projname)], Some(Locate(append, s).error))
    ensures s.connectError.None? && Locate(append, s) == Ok(None) ==>
      u == Uploaded([ConnectTo(server), LocateCall(append, account, projname)], None)
  {
    if s.connectError.Some? then Uploaded([ConnectTo(server)], s.connectError)
    else
      var located := [ConnectTo(server), LocateCall(append, account, projname)];
      match Locate(append, s)
      case Err(e) => Uploaded(located, Some(e))
      case Ok(None) => Uploaded(located, None)
      case Ok(Some(id)) =>
        AfterOpen(methods, stream, readers, stage, s, located + [OpenProject("/projects/" + account + "/" + id)])
  }

  /** The rest of `upload_stream` once the project client exists, after the
      calls `entered`: the batches, then the recalculation. */
  function AfterOpen(methods: set<string>, stream: seq<Json>, readers: map<string, string>, stage: bool, s: Server,
                     entered: seq<UploadCall>): (u: Uploaded)
    ensures |u.calls| >= |entered| && u.calls[..|entered|] == entered
    ensures stream != [] && "upload" !in methods ==> u == Uploaded(entered, Some(NoAttribute("upload")))
  {
    var bs := Chunks(stream, BATCH_SIZE);
    if bs != [] && "upload" !in methods then Uploaded(entered, Some(NoAttribute("upload")))
    else
      var fin := FinishOn(methods, stage, readers, s);
      Uploaded(entered + Uploads(bs, readers) + fin.calls, fin.error)
  }

  /** `upload_stream` on the client it was written for. */
  function UploadOutcome(stream: seq<Json>, server: string, account: string, projname: string,
                         readers: map<string, string>, append: bool, stage: bool, s: Server): (u: Uploaded)
    ensures u.calls != [] && u.calls[0] == ConnectTo(server)
    ensures s.connectError.Some? ==> u == Uploaded([ConnectTo(server)], s.connectError)
    ensures s.connectError.None? && Locate(append, s).Err? ==>
      u == Uploaded([ConnectTo(server), LocateCall(append, account, projname)], Some(Locate(append, s).error))
    ensures s.connectError.None? && Locate(append, s) == Ok(None) ==>
      u == Uploaded([ConnectTo(server), LocateCall(append, account, projname)], None)
  {
    UploadOutcomeOn(CLIENT_METHODS, stream, server, account, projname, readers, append, stage, s)
  }

  /** upload.py as written gets the v4 client, which has neither `upload`
      nor `wait_for`: once a project is open, a non-empty stream ends in
      AttributeError before any batch is sent, and an empty one, unless
      staging, ends in AttributeError after the recalculation is
      requested; no job is ever waited for. */
  lemma UploadAsWrittenFails(stream: seq<Json>, server: string, account: string, projname: string,
                             readers: map<string, string>, append: bool, stage: bool, s: Server)
    requires s.connectError.None? && Locate(append, s).Ok? && Locate(append, s).value.Some?
    ensures var u := UploadOutcomeOn(V4_METHODS, stream, server, account, projname, readers, append, stage, s);
      && (forall i :: 0 <= i < |u.calls| ==> !u.calls[i].UploadDocs? && !u.calls[i].WaitForJob?)
      && (stream != [] ==> |u.calls| == 3 && u.error == Some(NoAttribute("upload")))
      && (stream == [] && !stage && s.recalculated.Ok? ==> u.error == Some(NoAttribute("wait_for")))
      && (stream == [] && !stage && s.recalculated.Err? ==> u.error == Some(s.recalculated.error))
  {
    V4Lacks();
    var id := Locate(append, s).value.value;
    var entered := [ConnectTo(server), LocateCall(append, account, projname), OpenProject("/projects/" + account + "/" + id)];
    var bs := Chunks(stream, BATCH_SIZE);
    assert UploadOutcomeOn(V4_METHODS, stream, server, account, projname, readers, append, stage, s)
      == AfterOpen(V4_METHODS, stream, readers, stage, s, entered);
    AfterOpenWithout(V4_METHODS, stream, readers, stage, s, entered);
  }

  /** The v4 client has neither `upload` nor `wait_for`. */
  lemma V4Lacks()
    ensures "upload" !in V4_METHODS && "wait_for" !in V4_METHODS
  {
  }

  /** Once the project is open, a client without `upload` and `wait_for`
      sends no batch and waits for no job. */
  lemma AfterOpenWithout(methods: set<string>, stream: seq<Json>, readers: map<string, string>, stage: bool, s: Server,
                         entered: seq<UploadCall>)
    requires "upload" !in methods && "wait_for" !in methods
    requires forall i :: 0 <= i < |entered| ==> !entered[i].UploadDocs? && !entered[i].WaitForJob?
    ensures var u := AfterOpen(methods, stream, readers, stage, s, entered);
      && (forall i :: 0 <= i < |u.calls| ==> !u.calls[i].UploadDocs? && !u.calls[i].WaitForJob?)
      && (stream != [] ==> u.calls == entered && u.error == Some(NoAttribute("upload")))
      && (stream == [] && !stage && s.recalculated.Ok? ==> u.error == Some(NoAttribute("wait_for")))
      && (stream == [] && !stage && s.recalculated.Err? ==> u.error == Some(s.recalculated.error))
  {
    if stream == [] {
      var fin := FinishOn(methods, stage, readers, s);
      assert Chunks(stream, BATCH_SIZE) == [] && Uploads([], readers) == [];
      assert AfterOpen(methods, stream, readers, stage, s, entered) == Uploaded(entered + [] + fin.calls, fin.error);
      assert forall c :: c in fin.calls ==> c.Recalculate?;
    }
  }

  /** On the client it was written for, the same run uploads, recalculates
      and waits for the job. */
  lemma UploadIntendedWaits(stream: seq<Json>, server: string, account: string, projname: string,
                            readers: map<string, string>, append: bool, s: Server)
    requires s.connectError.None? && Locate(append, s).Ok? && Locate(append, s).value.Some?
    requires s.recalculated.Ok?
    ensures var u := UploadOutcome(stream, server, account, projname, readers, append, false, s);
      && u.error.None?
      && u.calls[|u.calls| - 1] == WaitForJob(s.recalculated.value)
      && u.calls[3..|u.calls| - 2] == Uploads(Chunks(stream, BATCH_SIZE), readers)
  {
    assert "upload" in CLIENT_METHODS && "wait_for" in CLIENT_METHODS;
  }

  /** The batch loop of `upload_stream`, with its counter. */
  method UploadBatches(stream: seq<Json>, readers: map<string, string>) returns (calls: seq<UploadCall>, counter: nat)
    ensures calls == Uploads(Chunks(stream, BATCH_SIZE), readers)
    ensures counter == |Chunks(stream, BATCH_SIZE)|
  {
    var bs := BatchesOf(stream, BATCH_SIZE);
    var batches := bs.value;
    calls := [];
    counter := 0;
    for i := 0 to |batches|
      invariant counter == i
      invariant calls == Uploads(batches[..i], readers)
    {
      assert batches[..i + 1][..i] == batches[..i];
      counter := counter + 1;
      calls := calls + [UploadDocs(counter, batches[i], readers)];
    }
    assert batches[..|batches|] == batches;
  }

  /** The first steps of `upload_stream`: create the project, or look it
      up by name in append mode. */
  method LocateProject(append: bool, s: Server) returns (r: Result<Option<string>, Failure>)
    ensures r == Locate(append, s)
  {
    if !append {
      if s.created.Err? {
        return Err(s.created.error);
      }
      var id := ProjectId(s.created.value);
      if id.Err? {
        return Err(id.error);
      }
      return Ok(Some(id.value));
    }
    if s.found.Err? {
      return Err(s.found.error);
    }
    var first := FirstProject(s.found.value);
    if first.Err? {
      return Err(first.error);
    }
    if first.value.None? {
      return Ok(None);
    }
    var id := ProjectId(first.value.value);
    if id.Err? {
      return Err(id.error);
    }
    return Ok(Some(id.value));
  }

  /** `upload_stream`, step by step, on a client class with `methods`. */
  method UploadStream(methods: set<string>, stream: seq<Json>, server: string, account: string, projname: string,
                      readers: map<string, string>, append: bool, stage: bool, s: Server)
    returns (u: Uploaded)
    ensures u == UploadOutcomeOn(methods, stream, server, account, projname, readers, append, stage, s)
  {
    var calls := [ConnectTo(server)];
    if s.connectError.Some? {
      return Uploaded(calls, s.connectError);
    }
    calls := calls + [LocateCall(append, account, projname)];
    var located := LocateProject(append, s);
    if located.Err? {
      return Uploaded(calls, Some(located.error));
    }
    if located.value.None? {
      return Uploaded(calls, None);
    }
    var projectId := located.value.value;
    calls := calls + [OpenProject("/projects/" + account + "/" + projectId)];
    u := UploadAfterOpen(methods, stream, readers, stage, s, calls);
  }

  /** The batch loop and the recalculation of `upload_stream`, step by step. */
  method UploadAfterOpen(methods: set<string>, stream: seq<Json>, readers: map<string, string>, stage: bool, s: Server,
                         entered: seq<UploadCall>) returns (u: Uploaded)
    ensures u == AfterOpen(methods, stream, readers, stage, s, entered)
  {
    if stream != [] && "upload" !in methods {
      ChunksCount(stream, BATCH_SIZE);
      return Uploaded(entered, Some(NoAttribute("upload")));
    }
    var uploads, counter := UploadBatches(stream, readers);
    var calls := entered + uploads;
    if stage {
      return Uploaded(calls, None);
    }
    calls := calls + [Recalculate(readers)];
    if s.recalculated.Err? {
      return Uploaded(calls, Some(s.recalculated.error));
    }
    if "wait_for" !in methods {
      return Uploaded(calls, Some(NoAttribute("wait_for")));
    }
    return Uploaded(calls + [WaitForJob(s.recalculated.value)], None);
  }

  /** The upload calls carry the batches in order, numbered 1, 2, … */
  lemma {:induction false} UploadsNumbered(bs: seq<seq<Json>>, readers: map<string, string>)
    ensures |Uploads(bs, readers)| == |bs|
    ensures forall i :: 0 <= i < |bs| ==> Uploads(bs, readers)[i] == UploadDocs(i + 1, bs[i], readers)
    decreases |bs|
  {
    if bs != [] {
      var init := bs[..|bs| - 1];
      UploadsNumbered(init, readers);
      assert forall i :: 0 <= i < |init| ==> init[i] == bs[i];
    }
  }

  /** When a project is found, every document of the stream is uploaded,
      in order, in batches of at most 1000, numbered from 1. */
  lemma UploadsCoverStream(stream: seq<Json>, readers: map<string, string>)
    ensures var bs := Chunks(stream, BATCH_SIZE);
      && Flatten(bs) == stream
      && |Uploads(bs, readers)| == |bs|
      && (bs == [] <==> stream == [])
      && (|bs| > 0 ==> (|bs| - 1) * BATCH_SIZE < |stream| <= |bs| * BATCH_SIZE)
      && forall i :: 0 <= i < |bs| ==>
           && Uploads(bs, readers)[i] == UploadDocs(i + 1, bs[i], readers)
           && 0 < |bs[i]| <= BATCH_SIZE
  {
    ChunksConcat(stream, BATCH_SIZE);
    ChunksCount(stream, BATCH_SIZE);
    ChunksSizes(stream, BATCH_SIZE);
    UploadsNumbered(Chunks(stream, BATCH_SIZE), readers);
  }

  /** In append mode with no project of that name, nothing is uploaded and
      nothing recalculated, and the run ends without error. */
  lemma AppendWithoutMatch(stream: seq<Json>, server: string, account: string, projname: string,
                           readers: map<string, string>, stage: bool, s: Server)
    requires s.connectError.None? && s.found == Ok(JList([]))
    ensures UploadOutcome(stream, server, account, projname, readers, true, stage, s)
      == Uploaded([ConnectTo(server), FindProjects("/projects/" + account, projname)], None)
  {
  }

  /** In append mode with several matches, the first match is used. */
  lemma AppendUsesFirstMatch(stream: seq<Json>, server: string, account: string, projname: string,
                             readers: map<string, string>, stage: bool, s: Server, id: string)
    requires s.connectError.None? && s.found.Ok? && s.found.value.JList? && s.found.value.items != []
    requires s.found.value.items[0].JObject? && s.found.value.items[0].fields.Keys == {"project_id"}
    requires s.found.value.items[0].fields["project_id"] == JStr(id)
    ensures UploadOutcome(stream, server, account, projname, readers, true, stage, s).calls[2]
      == OpenProject("/projects/" + account + "/" + id)
  {
    assert Locate(true, s) == Ok(Some(id));
  }

  /** Once the project is open, recalculation is requested exactly when not
      staging, after the last batch. */
  lemma RecalculateUnlessStaging(stream: seq<Json>, server: string, account: string, projname: string,
                                 readers: map<string, string>, append: bool, stage: bool, s: Server)
    requires s.connectError.None? && Locate(append, s).Ok? && Locate(append, s).value.Some?
    ensures var u := UploadOutcome(stream, server, account, projname, readers, append, stage, s);
      var n := 3 + |Chunks(stream, BATCH_SIZE)|;
      && (stage ==> |u.calls| == n && u.error.None?)
      && (!stage ==> |u.calls| > n && u.calls[n] == Recalculate(readers))
  {
    UploadsNumbered(Chunks(stream, BATCH_SIZE), readers);
  }

  /** `main` up to `upload_file`: the URL and the reader dict. */
  function Settings(apiUrl: string, local: bool, readers: Option<string>): (r: Result<(string, map<string, string>), Failure>)
    ensures r.Ok? ==> r.value.0 == ApiUrl(apiUrl, local)
    ensures r.Err? <==> ReaderDict(readers).Err?
  {
    var dict :- ReaderDict(readers);
    Ok((ApiUrl(apiUrl, local), dict))
  }
}
