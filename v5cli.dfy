/** The `lumi-api` command line of the v5 client (v5_cli.py). It parses the
    same command as cli.py, connects with an optional token file and the
    user-agent suffix `lumi-cli`, and from then on runs the shared
    flow of the Cli module, except that `--csv` output requires a list. */
module V5Cli {
  import opened Wrappers
  import opened RestCommon
  import opened Cli

  /** The command line of v5_cli.py. */
  datatype Args = Args(baseUrl: string, tokenFile: Option<string>, command: Command)

  /** Whether connecting raises, and the replies after that. */
  datatype World = World(connectError: Option<Failure>, replies: Replies)

  /** `LuminosoClient.connect(url=…, token_file=…, user_agent_suffix='lumi-cli')`. */
  function ConnectEvent(args: Args): Event {
    Connect(args.baseUrl, None, args.tokenFile, Some("lumi-cli"))
  }

  /** The events and exit status of `main()`. */
  ghost function Outcome(args: Args, w: World): (seq<Event>, int) {
    if w.connectError.Some? then ([ConnectEvent(args)] + [Report(w.connectError.value)], 1)
    else
      var rest := AfterConnect(RequireList, args.command, w.replies);
      ([ConnectEvent(args)] + rest.0, rest.1)
  }

  /** `main()`, step by step. */
  method Run(args: Args, w: World) returns (events: seq<Event>, status: int)
    ensures (events, status) == Outcome(args, w)
  {
    events := [Connect(args.baseUrl, None, args.tokenFile, Some("lumi-cli"))];
    if w.connectError.Some? {
      return events + [Report(w.connectError.value)], 1;
    }
    var rest;
    rest, status := RunConnected(RequireList, args.command, w.replies);
    events := events + rest;
  }

  /** Every run starts by connecting, with the token file and the
      `lumi-cli` suffix. */
  lemma ConnectsFirst(args: Args, w: World)
    ensures Outcome(args, w).0[0] == Connect(args.baseUrl, None, args.tokenFile, Some("lumi-cli"))
  {
  }

  /** The exit status is 0 or 1, and it is 1 exactly when the run ends by
      reporting an exception. */
  lemma ExitStatus(args: Args, w: World)
    ensures Outcome(args, w).1 == 0 || Outcome(args, w).1 == 1
    ensures Outcome(args, w).1 == 1 <==> EndsInReport(Outcome(args, w).0)
  {
    if w.connectError.None? {
      AfterConnectStatus(RequireList, args.command, w.replies);
      ReportAfter([ConnectEvent(args)], AfterConnect(RequireList, args.command, w.replies).0);
    }
  }

  /** A request is made exactly when connecting went through, a delete is
      confirmed and the parameters are read without error, and it carries
      those parameters. */
  lemma RequestMade(args: Args, w: World)
    ensures Requested(Outcome(args, w).0) <==>
      && w.connectError.None?
      && (args.command.verb == Delete ==> Confirmed(w.replies.answer))
      && RequestParams(args.command, w.replies.loads).Ok?
    ensures forall i :: 0 <= i < |Outcome(args, w).0| && Outcome(args, w).0[i].Request? ==>
      Outcome(args, w).0[i] == Request(args.command.verb, args.command.path, RequestParams(args.command, w.replies.loads).value)
  {
    if w.connectError.None? {
      AfterConnectRequest(RequireList, args.command, w.replies);
      RequestsAfter([ConnectEvent(args)], AfterConnect(RequireList, args.command, w.replies).0);
    } else {
      assert Outcome(args, w).0 == [ConnectEvent(args), Report(w.connectError.value)];
    }
  }

  /** With `--csv`, a result that is not a list fails with a TypeError
      and nothing written. */
  lemma CsvNeedsList(args: Args, w: World)
    requires w.connectError.None? && args.command.csv
    requires (args.command.verb == Delete ==> Confirmed(w.replies.answer)) && RequestParams(args.command, w.replies.loads).Ok?
    requires w.replies.response.Ok? && !w.replies.response.value.JList?
    ensures Outcome(args, w).1 == 1
    ensures var events := Outcome(args, w).0;
      && events[|events| - 2] == PrintCsvLines([])
      && events[|events| - 1].Report? && events[|events| - 1].error.kind == TypeError
  {
    var c := args.command;
    var rest := AfterRequest(RequireList, c, w.replies).0;
    assert rest == [PrintCsvLines([]), Report(Raise(TypeError, "output not able to be displayed as CSV."))];
    var pre := [ConnectEvent(args)] + DeletePrompt(c) + [Request(c.verb, c.path, RequestParams(c, w.replies.loads).value)];
    assert Outcome(args, w).0 == pre + rest;
  }
}
