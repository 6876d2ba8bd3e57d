/** The run of the script as a decision over what the cluster did: the ping,
    then the search, then the mapping of the hits (el.py, lines 10-62). The
    network calls are not modelled; their outcomes are the inputs. */
module Script {
  import opened Wrappers
  import opened DataViews

  /** An exception raised by the client library, with its `str()` text. Its
      classes are the ones the script's handlers distinguish. */
  datatype ClientError =
    | ConnectionError(text: string)
    | AuthenticationException(text: string)
    | NotFoundError(text: string)
    | OtherError(text: string)

  /** What constructing the client and calling `ping()` did. */
  datatype PingOutcome = Reachable | Unreachable | PingRaised(error: ClientError)

  /** `response["hits"]`: present or not, and its own `"hits"` list present or not. */
  datatype HitsSection = HitsSection(hits: Option<seq<Hit>>)
  datatype Response = Response(hits: Option<HitsSection>)

  /** What the one `search()` call did. */
  datatype SearchOutcome = Responded(response: Response) | SearchRaised(error: ClientError)

  /** One printed line: a message, or the rendered table of rows. */
  datatype Line = Text(text: string) | Table(rows: seq<Row>)

  /** Everything printed, in order, and the process exit status. */
  datatype Report = Report(lines: seq<Line>, status: nat)

  const PingFailedMessage: string := "Failed to connect to Elasticsearch cluster."
  const IndexNotFoundLine: string := "Index '.kibana' not found."

  /** The outer handlers, which print one line for whatever escapes the body. */
  function OuterHandler(e: ClientError): string
  {
    match e
    case ConnectionError(m) => "Connection error: " + m
    case AuthenticationException(m) => "Authentication failed: " + m
    case _ => "An unexpected error occurred: " + e.text
  }

  /** The inner handlers around `search()`: `NotFoundError` first, then any other exception. */
  function SearchHandler(e: ClientError): string
  {
    match e
    case NotFoundError(_) => IndexNotFoundLine
    case _ => "An error occurred while searching: " + e.text
  }

  /** `response["hits"]["hits"]`, or the text of the `KeyError` it raises. */
  function HitList(response: Response): Result<seq<Hit>, string>
  {
    match response.hits
    case None => Err(KeyErrorText("hits"))
    case Some(section) =>
      match section.hits
      case None => Err(KeyErrorText("hits"))
      case Some(hits) => Ok(hits)
  }

  /** The diagnostics as printed lines. */
  function AsText(messages: seq<string>): seq<Line>
  {
    seq(|messages|, i requires 0 <= i < |messages| => Text(messages[i]))
  }

  /** A fatal condition: one line printed, then `sys.exit(1)`. */
  function Fatal(message: string): Report
  {
    Report([Text(message)], 1)
  }

  /** The whole run, from the outcomes of the ping and of the search. */
  function Run(ping: PingOutcome, search: SearchOutcome): Report
  {
    match ping
    case Unreachable => Fatal(OuterHandler(ConnectionError(PingFailedMessage)))
    case PingRaised(e) => Fatal(OuterHandler(e))
    case Reachable =>
      match search
      case SearchRaised(e) => Fatal(SearchHandler(e))
      case Responded(response) =>
        match HitList(response)
        case Err(keyText) => Fatal(OuterHandler(OtherError(keyText)))
        case Ok(hits) => Report(AsText(Diagnostics(hits)) + [Table(Rows(hits))], 0)
  }

  /** The script as it executes: each fatal handler stops the run at once, and
      the hits are processed by the loop of `BuildRows`. */
  method Execute(ping: PingOutcome, search: SearchOutcome) returns (report: Report)
    ensures report == Run(ping, search)
  {
    if ping.Unreachable? {
      return Fatal(OuterHandler(ConnectionError(PingFailedMessage)));
    } else if ping.PingRaised? {
      return Fatal(OuterHandler(ping.error));
    }
    if search.SearchRaised? {
      return Fatal(SearchHandler(search.error));
    }
    var hitList := HitList(search.response);
    if hitList.Err? {
      return Fatal(OuterHandler(OtherError(hitList.error)));
    }
    var rows, diagnostics := BuildRows(hitList.value);
    report := Report(AsText(diagnostics) + [Table(rows)], 0);
  }

  // ---------------------------------------------------------------------
  // Properties of the run

  /** A ping that returns false prints exactly one connection error and exits 1;
      the search outcome plays no part, so no search is made. */
  lemma UnreachableFails(search: SearchOutcome)
    ensures Run(Unreachable, search) ==
            Report([Text("Connection error: " + "Failed to connect to Elasticsearch cluster.")], 1)
  {
  }

  /** An authentication error while connecting or pinging prints
      "Authentication failed: " and the error's text, and exits 1. */
  lemma AuthenticationFailsAtPing(message: string, search: SearchOutcome)
    ensures Run(PingRaised(AuthenticationException(message)), search) ==
            Report([Text("Authentication failed: " + message)], 1)
  {
  }

  /** Any other exception while connecting or pinging reaches the outer handlers:
      a `ConnectionError` prints "Connection error: " and its text, and any
      exception that is neither that nor an authentication error prints
      "An unexpected error occurred: " and its text; each exits 1. */
  lemma PingErrorsFail(e: ClientError, search: SearchOutcome)
    ensures e.ConnectionError? ==>
      Run(PingRaised(e), search) == Report([Text("Connection error: " + e.text)], 1)
    ensures e.NotFoundError? || e.OtherError? ==>
      Run(PingRaised(e), search) == Report([Text("An unexpected error occurred: " + e.text)], 1)
  {
  }

  /** Unless the ping succeeds, the search outcome does not influence the run. */
  lemma NoSearchUnlessReachable(ping: PingOutcome, s1: SearchOutcome, s2: SearchOutcome)
    requires !ping.Reachable?
    ensures Run(ping, s1) == Run(ping, s2)
    ensures Run(ping, s1).status == 1 && |Run(ping, s1).lines| == 1
  {
  }

  /** A missing index prints exactly "Index '.kibana' not found." and exits 1;
      every other search error, an authentication error included, prints
      "An error occurred while searching: " and its text and exits 1. */
  lemma SearchErrorsFail(e: ClientError)
    ensures e.NotFoundError? ==> Run(Reachable, SearchRaised(e)) == Report([Text("Index '.kibana' not found.")], 1)
    ensures !e.NotFoundError? ==>
      Run(Reachable, SearchRaised(e)) == Report([Text("An error occurred while searching: " + e.text)], 1)
  {
  }

  /** The run succeeds exactly when the ping succeeds and the response holds a hit
      list; it then prints the diagnostics in hit order followed by the table. */
  lemma SuccessIff(ping: PingOutcome, search: SearchOutcome)
    ensures Run(ping, search).status == 0 <==>
            ping.Reachable? && search.Responded? && HitList(search.response).Ok?
    ensures Run(ping, search).status == 0 ==>
            var hits := HitList(search.response).value;
            Run(ping, search).lines == AsText(Diagnostics(hits)) + [Table(Rows(hits))]
  {
  }

  /** Every failing run prints exactly one message line and no table; every run
      prints at most one table, as its last line. */
  lemma TableOnlyOnSuccess(ping: PingOutcome, search: SearchOutcome)
    ensures var r := Run(ping, search);
      r.status != 0 ==> r.status == 1 && |r.lines| == 1 && r.lines[0].Text?
    ensures var r := Run(ping, search);
      forall i :: 0 <= i < |r.lines| ==> (r.lines[i].Table? <==> r.status == 0 && i == |r.lines| - 1)
  {
  }

  /** A response without `hits.hits` ends in the outer catch-all with the
      `KeyError` text, and exits 1. */
  lemma MissingHitListFails(response: Response)
    requires HitList(response).Err?
    ensures Run(Reachable, Responded(response)) == Report([Text("An unexpected error occurred: 'hits'")], 1)
  {
    assert "An unexpected error occurred: " + KeyErrorText("hits") ==
           "An unexpected error occurred: 'hits'";
  }

  /** A response whose hits all have their required keys prints only the table,
      with one row per hit in hit order. */
  lemma AllCompleteRun(hits: seq<Hit>)
    requires forall i :: 0 <= i < |hits| ==> HasRequiredKeys(hits[i])
    ensures var r := Run(Reachable, Responded(Response(Some(HitsSection(Some(hits))))));
      && r.status == 0 && |r.lines| == 1 && r.lines[0].Table?
      && |r.lines[0].rows| == |hits|
      && forall i :: 0 <= i < |hits| ==> Project(hits[i]) == Ok(r.lines[0].rows[i])
  {
    AllHitsComplete(hits);
  }

  // ---------------------------------------------------------------------
  // Three single-hit scenarios

  function SingleHitResponse(h: Hit): Response
  {
    Response(Some(HitsSection(Some([h]))))
  }

  /** A response with one hit prints that hit's diagnostic, if any, then its table. */
  lemma SingleHitRun(h: Hit)
    ensures Run(Reachable, Responded(SingleHitResponse(h))) ==
            Report(AsText(DiagnosticsOf(h)) + [Table(RowsOf(h))], 0)
  {
    assert [h][..0] == [];
    assert Rows([h]) == RowsOf(h);
    assert Diagnostics([h]) == DiagnosticsOf(h);
  }

  /** A hit with every attribute present gives its row with the real values
      (the first case of unittest.py, lines 12-40). */
  lemma FullHitScenario()
    ensures Run(Reachable, Responded(SingleHitResponse(
              Hit(Some("1"), Some(Source(Some(Attributes(
                Some("Test Title"), Some("timestamp"),
                Some([FieldDescriptor("field1"), FieldDescriptor("field2")]))))))))) ==
            Report([Table([Row("1", "Test Title", "timestamp", 2)])], 0)
  {
    SingleHitRun(Hit(Some("1"), Some(Source(Some(Attributes(
      Some("Test Title"), Some("timestamp"),
      Some([FieldDescriptor("field1"), FieldDescriptor("field2")])))))));
  }

  /** A hit with only a title gets the defaults "N/A" and 0, and no diagnostic
      (the hit of unittest.py, lines 96-110). */
  lemma TitleOnlyScenario()
    ensures Run(Reachable, Responded(SingleHitResponse(
              Hit(Some("1"), Some(Source(Some(Attributes(Some("Test Title"), None, None)))))))) ==
            Report([Table([Row("1", "Test Title", "N/A", 0)])], 0)
  {
    SingleHitRun(Hit(Some("1"), Some(Source(Some(Attributes(Some("Test Title"), None, None))))));
  }

  /** A hit without a title gives one diagnostic naming 'title' and an empty table. */
  lemma MissingTitleScenario()
    ensures Run(Reachable, Responded(SingleHitResponse(
              Hit(Some("1"), Some(Source(Some(Attributes(None, Some("timestamp"), None)))))))) ==
            Report([Text("Missing expected key in document: 'title'"), Table([])], 0)
  {
    assert MissingKeyLine(TitleKey) == "Missing expected key in document: 'title'";
    SingleHitRun(Hit(Some("1"), Some(Source(Some(Attributes(None, Some("timestamp"), None))))));
  }
}
