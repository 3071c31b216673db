/**
 * The full-scan endpoint of the backend: which input it analyses, how it
 * assembles its report from the crawler's endpoints, the model's
 * predictions and the network graph, and the lazily loaded model.  The
 * crawler, the preprocessor, the model, the graph library and the path
 * finder are parameters.
 */
module Backend {
  import opened Wrappers

  /** An endpoint: a crawled address, or the number of a row of an uploaded data set. */
  datatype Endpoint = Url(address: string) | Row(index: nat)

  /** A directed link between two endpoints. */
  type Connection = (Endpoint, Endpoint)

  // ---------------------------------------------------------------------------
  // Connections

  /** The sequential connections: each endpoint linked to the next one. */
  function Connections(endpoints: seq<Endpoint>): (cs: seq<Connection>)
    ensures |cs| == if |endpoints| > 1 then |endpoints| - 1 else 0
    ensures forall i :: 0 <= i < |cs| ==> cs[i] == (endpoints[i], endpoints[i + 1])
  {
    if |endpoints| > 1 then
      seq(|endpoints| - 1, i requires 0 <= i < |endpoints| - 1 => (endpoints[i], endpoints[i + 1]))
    else
      []
  }

  /**
   * The connections form one path through all endpoints in their order: it
   * starts at the first endpoint, ends at the last, and each link starts
   * where the previous one ended.
   */
  lemma ConnectionsFormPath(endpoints: seq<Endpoint>)
    requires |endpoints| > 1
    ensures var cs := Connections(endpoints);
      && cs[0].0 == endpoints[0]
      && cs[|cs| - 1].1 == endpoints[|endpoints| - 1]
      && forall i :: 0 <= i < |cs| - 1 ==> cs[i].1 == cs[i + 1].0
  {
  }

  // ---------------------------------------------------------------------------
  // Threat level

  /** `sum(xs)`. */
  function Sum(xs: seq<int>): int
  {
    if xs == [] then 0 else xs[0] + Sum(xs[1..])
  }

  /** Python's `int(a / b)`: the quotient rounded toward zero. */
  function TruncDiv(a: int, b: int): int
    requires b > 0
  {
    if a >= 0 then a / b else -((-a) / b)
  }

  /** `int(100 * sum(preds) / len(preds)) if preds else 0`. */
  function ThreatLevel(preds: seq<int>): int
  {
    if preds == [] then 0 else TruncDiv(100 * Sum(preds), |preds|)
  }

  /** Every prediction is a 0-or-1 label. */
  predicate Binary(preds: seq<int>)
  {
    forall i :: 0 <= i < |preds| ==> preds[i] == 0 || preds[i] == 1
  }

  /** Over 0-or-1 labels the sum counts the ones, so it lies between 0 and the length. */
  lemma {:induction false} BinarySumBounds(preds: seq<int>)
    requires Binary(preds)
    ensures 0 <= Sum(preds) <= |preds|
  {
    if preds != [] {
      assert Binary(preds[1..]) by {
        forall i | 0 <= i < |preds| - 1 ensures preds[1..][i] == 0 || preds[1..][i] == 1 {
          assert preds[1..][i] == preds[i + 1];
        }
      }
      BinarySumBounds(preds[1..]);
    }
  }

  /** With 0-or-1 labels the threat level is a percentage: between 0 and 100. */
  lemma ThreatLevelIsPercentage(preds: seq<int>)
    requires Binary(preds)
    ensures 0 <= ThreatLevel(preds) <= 100
  {
    if preds != [] {
      BinarySumBounds(preds);
      var n, a := |preds|, 100 * Sum(preds);
      assert 0 <= a <= 100 * n;
      var q := a / n;
      assert q * n <= a;
      assert q * n <= 100 * n;
      assert q <= 100;
    }
  }

  /** A single prediction per endpoint, all 1, gives 100; all 0 gives 0. */
  lemma {:induction false} ThreatLevelExtremes(n: nat)
    requires n > 0
    ensures ThreatLevel(seq(n, _ => 1)) == 100
    ensures ThreatLevel(Zeros(n)) == 0
  {
    SumConstant(n, 1);
    SumConstant(n, 0);
    ExactQuotient(100, n);
  }

  /** Dividing a multiple of `n` by `n` gives the factor back. */
  lemma ExactQuotient(k: int, n: int)
    requires n > 0
    ensures (k * n) / n == k
  {
    var q, r := (k * n) / n, (k * n) % n;
    assert (k - q) * n == r;
    assert k - q >= 1 ==> (k - q) * n >= n;
    assert k - q <= -1 ==> (k - q) * n <= -n;
  }

  /** The sum of `n` copies of `c` is `n * c`. */
  lemma {:induction false} SumConstant(n: nat, c: int)
    ensures Sum(seq(n, _ => c)) == n * c
  {
    if n > 0 {
      assert seq(n, _ => c)[1..] == seq(n - 1, _ => c);
      SumConstant(n - 1, c);
    }
  }

  /** `[0] * n`: the predictions used when the model cannot predict. */
  function Zeros(n: nat): (z: seq<int>)
    ensures |z| == n && Binary(z)
  {
    seq(n, _ => 0)
  }

  /** The fallback predictions always give threat level 0. */
  lemma FallbackThreatLevel(n: nat)
    ensures ThreatLevel(Zeros(n)) == 0
  {
    if n > 0 {
      ThreatLevelExtremes(n);
    }
  }

  // ---------------------------------------------------------------------------
  // Vulnerability rows

  /** The decimal digit `d` as a character. */
  function DigitChar(d: nat): char
    requires d < 10
  {
    ('0' as int + d) as char
  }

  /** The decimal digits of `n`, most significant first, without leading zeros. */
  function Digits(n: nat): (s: string)
    ensures |s| >= 1
    ensures forall i :: 0 <= i < |s| ==> '0' <= s[i] <= '9'
    decreases n
  {
    if n < 10 then [DigitChar(n)] else Digits(n / 10) + [DigitChar(n % 10)]
  }

  /** Python's `str(n)` for an integer. */
  function DecimalString(n: int): string
  {
    if n < 0 then "-" + Digits(-n) else Digits(n)
  }

  /** The value of a string of decimal digits. */
  function DigitsValue(s: string): int
  {
    if s == [] then 0 else DigitsValue(s[..|s| - 1]) * 10 + (s[|s| - 1] as int - '0' as int)
  }

  /** Python's `int(s)` for what `str` produces: an optional minus sign, then digits. */
  function ParseDecimal(s: string): int
  {
    if |s| > 0 && s[0] == '-' then -DigitsValue(s[1..]) else DigitsValue(s)
  }

  /** Reading back the digits of `n` gives `n`. */
  lemma {:induction false} DigitsRoundTrip(n: nat)
    ensures DigitsValue(Digits(n)) == n
    decreases n
  {
    if n >= 10 {
      var s := Digits(n);
      assert s[..|s| - 1] == Digits(n / 10);
      DigitsRoundTrip(n / 10);
    }
  }

  /** `int(str(n)) == n`: the label of a row spells its score. */
  lemma DecimalRoundTrip(n: int)
    ensures ParseDecimal(DecimalString(n)) == n
  {
    if n < 0 {
      DigitsRoundTrip(-n);
      assert ("-" + Digits(-n))[1..] == Digits(-n);
    } else {
      DigitsRoundTrip(n);
    }
  }

  /** One row of the vulnerabilities table. */
  datatype VulnerabilityRow = VulnerabilityRow(endpoint: Endpoint, vulnerability: string, score: int)

  /** `zip(endpoints, preds)` turned into rows: as many as the shorter list, row `i` pairing endpoint `i` with prediction `i`. */
  function VulnerabilityRows(endpoints: seq<Endpoint>, preds: seq<int>): (rows: seq<VulnerabilityRow>)
    ensures |rows| == if |endpoints| < |preds| then |endpoints| else |preds|
    ensures forall i :: 0 <= i < |rows| ==>
      rows[i].endpoint == endpoints[i] && rows[i].score == preds[i] && ParseDecimal(rows[i].vulnerability) == preds[i]
  {
    if endpoints == [] || preds == [] then
      []
    else
      DecimalRoundTrip(preds[0]);
      [VulnerabilityRow(endpoints[0], DecimalString(preds[0]), preds[0])]
        + VulnerabilityRows(endpoints[1..], preds[1..])
  }

  // ---------------------------------------------------------------------------
  // Alerts

  /** An alert: its message and its level. */
  datatype Alert = Alert(message: string, level: string)

  /** The alert for a threat level: above 75 critical, above 40 a warning, otherwise informational. */
  function AlertFor(threatLevel: int): Alert
  {
    if threatLevel > 75 then Alert("High threat detected!", "critical")
    else if threatLevel > 40 then Alert("Moderate threat detected.", "warning")
    else Alert("System appears safe.", "info")
  }

  /** The three levels split the threat levels into three disjoint ranges. */
  lemma AlertThresholds(threatLevel: int)
    ensures AlertFor(threatLevel).level == "critical" <==> threatLevel > 75
    ensures AlertFor(threatLevel).level == "warning" <==> 40 < threatLevel <= 75
    ensures AlertFor(threatLevel).level == "info" <==> threatLevel <= 40
  {
  }

  // ---------------------------------------------------------------------------
  // Input selection and preparation

  /** What the request supplies for analysis. */
  datatype Input<U> = FromUrl(url: string) | FromFile(upload: U) | NoInput

  /**
   * `if url: ... elif file: ... else: ...`: a non-empty URL wins, then an
   * uploaded file; an empty URL counts as absent.
   */
  function SelectInput<U>(url: Option<string>, file: Option<U>): (input: Input<U>)
    ensures url.Some? && url.value != "" ==> input == FromUrl(url.value)
    ensures !(url.Some? && url.value != "") && file.Some? ==> input == FromFile(file.value)
    ensures input.NoInput? <==> !(url.Some? && url.value != "") && file.None?
  {
    if url.Some? && url.value != "" then FromUrl(url.value)
    else if file.Some? then FromFile(file.value)
    else NoInput
  }

  /** The data frame handed to the model: its number of rows and its `endpoint` column, if it has one. */
  datatype Frame = Frame(rows: nat, endpointColumn: Option<seq<Endpoint>>)

  /** A Python computation that returns a value or raises. */
  datatype Outcome<T> = Returned(value: T) | Raised(error: string)

  /**
   * The endpoints of an uploaded file, as written: the `endpoint` column when
   * there is one; otherwise the default `list(range(len(df)))`, on which
   * `.tolist()` is then called, and a list has no such method.
   */
  function FileEndpointsAsWritten(frame: Frame): Outcome<seq<Endpoint>>
  {
    match frame.endpointColumn
    case Some(column) => Returned(column)
    case None => Raised("AttributeError: 'list' object has no attribute 'tolist'")
  }

  /** As written, every upload without an `endpoint` column makes the request fail. */
  lemma FileWithoutEndpointColumnFails(rows: nat)
    ensures FileEndpointsAsWritten(Frame(rows, None)).Raised?
  {
  }

  /** The row numbers `0 .. n - 1` as endpoints. */
  function RowNumbers(n: nat): (eps: seq<Endpoint>)
    ensures |eps| == n && forall i :: 0 <= i < n ==> eps[i] == Row(i)
  {
    seq(n, (i: int) requires 0 <= i < n => Row(i))
  }

  /** The endpoints of an uploaded file: its `endpoint` column, or else one row number per row. */
  function FileEndpoints(frame: Frame): Outcome<seq<Endpoint>>
  {
    match frame.endpointColumn
    case Some(column) => Returned(column)
    case None => Returned(RowNumbers(frame.rows))
  }

  /**
   * The corrected lookup never fails, agrees with the code wherever the code
   * succeeds, and without a column names row `i` by `i`.
   */
  lemma FileEndpointsCorrected(frame: Frame)
    ensures FileEndpoints(frame).Returned?
    ensures FileEndpointsAsWritten(frame).Returned? ==> FileEndpoints(frame) == FileEndpointsAsWritten(frame)
    ensures frame.endpointColumn.None? ==>
      |FileEndpoints(frame).value| == frame.rows &&
      forall i :: 0 <= i < frame.rows ==> FileEndpoints(frame).value[i] == Row(i)
  {
  }

  /** The endpoints to analyse, their connections and the frame for the model. */
  datatype Prepared = Prepared(endpoints: seq<Endpoint>, connections: seq<Connection>, frame: Frame)

  /**
   * Steps 1 and 2 of a full scan: crawl the URL and link its endpoints in
   * order, or preprocess the file, whose endpoints have no connections.
   */
  function Prepare<U>(input: Input<U>, crawl: string -> seq<Endpoint>, preprocess: U -> Frame): Option<Prepared>
  {
    match input
    case FromUrl(u) =>
      var endpoints := crawl(u);
      Some(Prepared(endpoints, Connections(endpoints), Frame(|endpoints|, Some(endpoints))))
    case FromFile(f) =>
      var frame := preprocess(f);
      Some(Prepared(FileEndpoints(frame).value, [], frame))
    case NoInput => None
  }

  // ---------------------------------------------------------------------------
  // Report assembly

  /** What the graph library reports of the graph it built. */
  datatype Graph = Graph(nodes: seq<Endpoint>, edges: seq<Connection>)

  /** A path found through the graph. */
  type Path = seq<Endpoint>

  /** The model's predictions for the frame, or all zeros when predicting raises. */
  function Predictions<M>(model: M, frame: Frame, predict: (M, Frame) -> Option<seq<int>>): seq<int>
  {
    match predict(model, frame)
    case Some(preds) => preds
    case None => Zeros(frame.rows)
  }

  /** Paths from the first to the last endpoint, when there are two or more; none when the search raises. */
  function AttackPaths(endpoints: seq<Endpoint>, graph: Graph,
                       findPaths: (Graph, Endpoint, Endpoint) -> Option<seq<Path>>): seq<Path>
  {
    if |endpoints| > 1 then
      match findPaths(graph, endpoints[0], endpoints[|endpoints| - 1])
      case Some(paths) => paths
      case None => []
    else
      []
  }

  /** With at most one endpoint there is nothing to search, whatever the path finder would say. */
  lemma NoPathsForOneEndpoint(endpoints: seq<Endpoint>, graph: Graph,
                              findPaths: (Graph, Endpoint, Endpoint) -> Option<seq<Path>>)
    requires |endpoints| <= 1
    ensures AttackPaths(endpoints, graph, findPaths) == []
  {
  }

  /** The endpoint's answer; `Crashed` is a request that ends with an uncaught exception. */
  datatype Response =
    | InputError(error: string)
    | Crashed(exception: string)
    | Report(threatLevel: int, vulnerabilities: seq<VulnerabilityRow>, network: Graph,
             attackPaths: seq<Path>, alerts: seq<Alert>)

  const NoInputMessage: string := "Provide either a URL or a file."

  /** Steps 4 to 8 of a full scan, for a prepared input and a loaded model. */
  function Analyse<M>(p: Prepared, model: M,
                      predict: (M, Frame) -> Option<seq<int>>,
                      buildGraph: (seq<Endpoint>, seq<Connection>) -> Graph,
                      findPaths: (Graph, Endpoint, Endpoint) -> Option<seq<Path>>): Response
  {
    var preds := Predictions(model, p.frame, predict);
    var graph := buildGraph(p.endpoints, p.connections);
    var level := ThreatLevel(preds);
    Report(level, VulnerabilityRows(p.endpoints, preds), graph,
           AttackPaths(p.endpoints, graph, findPaths), [AlertFor(level)])
  }

  /** The answer of a full scan, with `model` the model `get_model` returns. */
  function FullScanResponse<U, M>(url: Option<string>, file: Option<U>,
                                  crawl: string -> seq<Endpoint>, preprocess: U -> Frame, model: M,
                                  predict: (M, Frame) -> Option<seq<int>>,
                                  buildGraph: (seq<Endpoint>, seq<Connection>) -> Graph,
                                  findPaths: (Graph, Endpoint, Endpoint) -> Option<seq<Path>>): Response
  {
    match Prepare(SelectInput(url, file), crawl, preprocess)
    case None => InputError(NoInputMessage)
    case Some(p) => Analyse(p, model, predict, buildGraph, findPaths)
  }

  /**
   * The answer as the handler is written: for an upload whose frame has no
   * `endpoint` column, the `.tolist()` of line 61 raises before the model is
   * fetched, and the request ends with that exception.  Among the failures
   * modelled here that is the only crash: the crawler, the preprocessor, the
   * model loader and the graph builder are taken to return, so every other
   * request gets the answer of `FullScanResponse`.
   */
  function FullScanResponseAsWritten<U, M>(url: Option<string>, file: Option<U>,
                                           crawl: string -> seq<Endpoint>, preprocess: U -> Frame, model: M,
                                           predict: (M, Frame) -> Option<seq<int>>,
                                           buildGraph: (seq<Endpoint>, seq<Connection>) -> Graph,
                                           findPaths: (Graph, Endpoint, Endpoint) -> Option<seq<Path>>): Response
  {
    var input := SelectInput(url, file);
    var answer := FullScanResponse(url, file, crawl, preprocess, model, predict, buildGraph, findPaths);
    if input.FromFile? then
      match FileEndpointsAsWritten(preprocess(input.upload))
      case Raised(e) => Crashed(e)
      case Returned(_) => answer
    else
      answer
  }

  /**
   * Among the modelled failures, the code and the corrected model answer
   * alike except on exactly one kind of request: the selected input is an
   * upload without an `endpoint` column.
   * There the code crashes, while the corrected model reports on the rows,
   * one endpoint per row number.
   */
  lemma CorrectionOnlyChangesMissingColumn<U, M>(url: Option<string>, file: Option<U>,
                                                 crawl: string -> seq<Endpoint>, preprocess: U -> Frame, model: M,
                                                 predict: (M, Frame) -> Option<seq<int>>,
                                                 buildGraph: (seq<Endpoint>, seq<Connection>) -> Graph,
                                                 findPaths: (Graph, Endpoint, Endpoint) -> Option<seq<Path>>)
    ensures var written := FullScanResponseAsWritten(url, file, crawl, preprocess, model, predict, buildGraph, findPaths);
      var corrected := FullScanResponse(url, file, crawl, preprocess, model, predict, buildGraph, findPaths);
      var missing := !(url.Some? && url.value != "") && file.Some? && preprocess(file.value).endpointColumn.None?;
      && (written.Crashed? <==> missing)
      && (!missing ==> written == corrected)
      && (missing ==> corrected.Report? && corrected.network == buildGraph(RowNumbers(preprocess(file.value).rows), []))
  {
  }

  /**
   * Every report carries exactly one alert, matching its threat level; one
   * vulnerability row per endpoint that has a prediction; the graph of the
   * prepared endpoints; and no paths for a single endpoint.
   */
  lemma ReportShape<M>(p: Prepared, model: M,
                       predict: (M, Frame) -> Option<seq<int>>,
                       buildGraph: (seq<Endpoint>, seq<Connection>) -> Graph,
                       findPaths: (Graph, Endpoint, Endpoint) -> Option<seq<Path>>)
    ensures var r := Analyse(p, model, predict, buildGraph, findPaths);
      var preds := Predictions(model, p.frame, predict);
      && r.Report?
      && r.threatLevel == ThreatLevel(preds)
      && r.alerts == [AlertFor(r.threatLevel)]
      && |r.vulnerabilities| == (if |p.endpoints| < |preds| then |p.endpoints| else |preds|)
      && r.network == buildGraph(p.endpoints, p.connections)
      && (|p.endpoints| <= 1 ==> r.attackPaths == [])
      && (Binary(preds) ==> 0 <= r.threatLevel <= 100)
  {
    var preds := Predictions(model, p.frame, predict);
    var r := Analyse(p, model, predict, buildGraph, findPaths);
    assert r.vulnerabilities == VulnerabilityRows(p.endpoints, preds);
    if Binary(preds) {
      ThreatLevelIsPercentage(preds);
    }
  }

  /** When the model raises, the report is the all-clear: threat level 0, an informational alert, every score 0. */
  lemma FailedPredictionReport<M>(p: Prepared, model: M,
                                  predict: (M, Frame) -> Option<seq<int>>,
                                  buildGraph: (seq<Endpoint>, seq<Connection>) -> Graph,
                                  findPaths: (Graph, Endpoint, Endpoint) -> Option<seq<Path>>)
    requires predict(model, p.frame).None?
    ensures var r := Analyse(p, model, predict, buildGraph, findPaths);
      && r.threatLevel == 0
      && r.alerts[0].level == "info"
      && forall i :: 0 <= i < |r.vulnerabilities| ==> r.vulnerabilities[i].score == 0
  {
    FallbackThreatLevel(p.frame.rows);
  }

  /** A non-empty URL takes precedence: the file, if any, is ignored. */
  lemma UrlTakesPrecedence<U, M>(url: string, file: Option<U>,
                                 crawl: string -> seq<Endpoint>, preprocess: U -> Frame, model: M,
                                 predict: (M, Frame) -> Option<seq<int>>,
                                 buildGraph: (seq<Endpoint>, seq<Connection>) -> Graph,
                                 findPaths: (Graph, Endpoint, Endpoint) -> Option<seq<Path>>)
    requires url != ""
    ensures FullScanResponse(Some(url), file, crawl, preprocess, model, predict, buildGraph, findPaths)
         == FullScanResponse(Some(url), None, crawl, preprocess, model, predict, buildGraph, findPaths)
    ensures FullScanResponse(Some(url), file, crawl, preprocess, model, predict, buildGraph, findPaths).network
         == buildGraph(crawl(url), Connections(crawl(url)))
  {
  }

  /** Without a URL or a file the answer is the input error, and nothing is crawled, predicted or built. */
  lemma NoInputIsError<U, M>(url: Option<string>, file: Option<U>,
                             crawl: string -> seq<Endpoint>, preprocess: U -> Frame, model: M,
                             predict: (M, Frame) -> Option<seq<int>>,
                             buildGraph: (seq<Endpoint>, seq<Connection>) -> Graph,
                             findPaths: (Graph, Endpoint, Endpoint) -> Option<seq<Path>>)
    requires url.None? || url == Some("")
    requires file.None?
    ensures FullScanResponse(url, file, crawl, preprocess, model, predict, buildGraph, findPaths)
         == InputError(NoInputMessage)
  {
  }

  // ---------------------------------------------------------------------------
  // The server and its model cache

  /** The backend process: the model, loaded on first use and kept. */
  class Server<M> {
    var model: Option<M>
    /** How many times the model has been loaded. */
    ghost var loads: nat

    /** The model is loaded once at most, and exactly once if it is cached. */
    ghost predicate Valid()
      reads this
    {
      loads == if model.Some? then 1 else 0
    }

    constructor ()
      ensures Valid() && model.None?
    {
      model := None;
      loads := 0;
    }

    /** `get_model`: load the model on the first call (`load` is what loading gives), then reuse it. */
    method GetModel(load: M) returns (m: M)
      requires Valid()
      modifies this
      ensures Valid() && model == Some(m)
      ensures old(model).Some? ==> m == old(model).value && loads == old(loads)
      ensures old(model).None? ==> m == load && loads == old(loads) + 1
    {
      if model.None? {
        model := Some(load);
        loads := loads + 1;
      }
      m := model.value;
    }

    /**
     * `fullscan`: pick the input, prepare it, then fetch the model and
     * assemble the report.  Without an input nothing runs and the model
     * stays unloaded if it was.
     */
    method FullScan<U>(url: Option<string>, file: Option<U>,
                       crawl: string -> seq<Endpoint>, preprocess: U -> Frame, load: M,
                       predict: (M, Frame) -> Option<seq<int>>,
                       buildGraph: (seq<Endpoint>, seq<Connection>) -> Graph,
                       findPaths: (Graph, Endpoint, Endpoint) -> Option<seq<Path>>)
      returns (r: Response)
      requires Valid()
      modifies this
      ensures Valid()
      ensures SelectInput(url, file).NoInput? ==>
        r == InputError(NoInputMessage) && model == old(model) && loads == old(loads)
      ensures !SelectInput(url, file).NoInput? ==>
        && model == Some(if old(model).Some? then old(model).value else load)
        && r == FullScanResponse(url, file, crawl, preprocess, model.value, predict, buildGraph, findPaths)
    {
      var prepared := Prepare(SelectInput(url, file), crawl, preprocess);
      if prepared.None? {
        return InputError(NoInputMessage);
      }
      var p := prepared.value;
      var m := GetModel(load);
      var preds: seq<int>;
      match predict(m, p.frame) {
        case Some(ps) => preds := ps;
        case None => preds := Zeros(p.frame.rows);
      }
      var graph := buildGraph(p.endpoints, p.connections);
      var paths: seq<Path> := [];
      if |p.endpoints| > 1 {
        match findPaths(graph, p.endpoints[0], p.endpoints[|p.endpoints| - 1]) {
          case Some(found) => paths := found;
          case None => paths := [];
        }
      }
      var level := ThreatLevel(preds);
      r := Report(level, VulnerabilityRows(p.endpoints, preds), graph, paths, [AlertFor(level)]);
      assert preds == Predictions(m, p.frame, predict);
      assert paths == AttackPaths(p.endpoints, graph, findPaths);
      assert r == Analyse(p, m, predict, buildGraph, findPaths);
    }
  }
}
