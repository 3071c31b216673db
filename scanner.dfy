/**
 * The logic of the scanner page: the keyword classifier that picks the attack
 * to visualise, the simulated progress ticker, the stage display, the
 * severity lookups, the vulnerability catalog, the editable target inputs
 * and the list of saved URLs.  Firestore, the URL parser and `Math.random`
 * are parameters.
 */
module ScannerPage {
  import opened Wrappers
  import opened JsStrings

  // ---------------------------------------------------------------------------
  // Attack categories and the keyword classifier

  /** The three attacks the page can predict. */
  datatype Attack = Sql | Xss | Mitm

  /** `visualizationType`: `"idle"` until a scan has classified the targets. */
  datatype Visualization = Idle | Predicted(attack: Attack)

  /** The `types` array the random fallback draws from, in its order. */
  const AttackOrder: seq<Attack> := [Sql, Xss, Mitm]

  /** `Math.floor(roll * n)` for a `roll` drawn from `Math.random()`, that is from [0, 1). */
  function RandomIndex(roll: real, n: nat): (i: nat)
    requires 0.0 <= roll < 1.0 && n > 0
    ensures i < n
  {
    var scaled := roll * n as real;
    assert 0.0 <= scaled < n as real by {
      assert roll * n as real <= 1.0 * n as real;
      assert roll * n as real != n as real;
    }
    scaled.Floor
  }

  /** The keyword pair of each branch of the classifier. */
  function Keywords(a: Attack): seq<string>
  {
    match a
    case Sql => ["login", "auth"]
    case Xss => ["form", "input"]
    case Mitm => ["api", "data"]
  }

  /** `text` contains one of the keywords of `a`. */
  predicate Mentions(text: string, a: Attack)
  {
    exists w :: w in Keywords(a) && Contains(text, w)
  }

  /** The first attack of `order` whose keywords `text` mentions, if there is one. */
  function FirstMentioned(text: string, order: seq<Attack>): (r: Option<Attack>)
    ensures r.Some? ==> r.value in order && Mentions(text, r.value)
    ensures r.Some? ==> exists k :: 0 <= k < |order| && order[k] == r.value && forall j :: 0 <= j < k ==> !Mentions(text, order[j])
    ensures r.None? <==> forall a :: a in order ==> !Mentions(text, a)
  {
    if order == [] then None
    else if Mentions(text, order[0]) then Some(order[0])
    else FirstMentioned(text, order[1..])
  }

  /**
   * The visualisation `startScan` chooses: the keyword tests on the
   * lower-cased concatenation of all targets, in their fixed order, and
   * otherwise `types[Math.floor(Math.random() * 3)]`.
   */
  function Classify(targets: seq<string>, roll: real): Attack
    requires 0.0 <= roll < 1.0
  {
    var text := ToLower(Join(targets));
    if Contains(text, "login") || Contains(text, "auth") then Sql
    else if Contains(text, "form") || Contains(text, "input") then Xss
    else if Contains(text, "api") || Contains(text, "data") then Mitm
    else AttackOrder[RandomIndex(roll, |AttackOrder|)]
  }

  /**
   * The classifier picks the first attack, in the order Sql, Xss, Mitm, whose
   * keywords occur in the lower-cased joined targets; only when none does is
   * the random pick used.
   */
  lemma ClassifyIsFirstMention(targets: seq<string>, roll: real)
    requires 0.0 <= roll < 1.0
    ensures var text := ToLower(Join(targets));
      Classify(targets, roll) ==
        match FirstMentioned(text, AttackOrder)
        case Some(a) => a
        case None => AttackOrder[RandomIndex(roll, 3)]
  {
    var text := ToLower(Join(targets));
    assert Mentions(text, Sql) <==> Contains(text, "login") || Contains(text, "auth") by {
      assert Keywords(Sql)[0] == "login" && Keywords(Sql)[1] == "auth";
    }
    assert Mentions(text, Xss) <==> Contains(text, "form") || Contains(text, "input") by {
      assert Keywords(Xss)[0] == "form" && Keywords(Xss)[1] == "input";
    }
    assert Mentions(text, Mitm) <==> Contains(text, "api") || Contains(text, "data") by {
      assert Keywords(Mitm)[0] == "api" && Keywords(Mitm)[1] == "data";
    }
    assert AttackOrder[1..][1..] == [Mitm];
  }

  /** Once a keyword fires, the random number plays no part: two rolls give the same attack. */
  lemma ClassifyDeterministicOnKeyword(targets: seq<string>, roll1: real, roll2: real, a: Attack)
    requires 0.0 <= roll1 < 1.0 && 0.0 <= roll2 < 1.0
    requires Mentions(ToLower(Join(targets)), a)
    ensures Classify(targets, roll1) == Classify(targets, roll2)
  {
    ClassifyIsFirstMention(targets, roll1);
    ClassifyIsFirstMention(targets, roll2);
    assert a in AttackOrder;
  }

  /** A login or auth keyword in any single target makes the prediction SQL injection. */
  lemma SqlKeywordInAnyTarget(targets: seq<string>, k: nat, w: string, roll: real)
    requires 0.0 <= roll < 1.0
    requires k < |targets| && w in Keywords(Sql)
    requires Contains(ToLower(targets[k]), w)
    ensures Classify(targets, roll) == Sql
  {
    PartOccurrenceSurvivesJoin(targets, k, w);
    ClassifyIsFirstMention(targets, roll);
  }

  /**
   * Because the targets are joined with `''`, a keyword may straddle two
   * targets: neither `"lo"` nor `"gin"` mentions any keyword, yet the pair
   * is classified as SQL injection.
   */
  lemma KeywordSpansTargets(roll: real)
    requires 0.0 <= roll < 1.0
    ensures forall a :: !Mentions(ToLower("lo"), a) && !Mentions(ToLower("gin"), a)
    ensures Classify(["lo", "gin"], roll) == Sql
  {
    assert ToLower("lo") == "lo";
    assert ToLower("gin") == "gin";
    assert !Contains("gin", "api") by {
      assert "gin"[..3][0] == 'g' && "api"[0] == 'a';
      assert !Contains("gin"[1..], "api");
    }
    forall a ensures !Mentions("lo", a) && !Mentions("gin", a) {
      assert forall w :: w in Keywords(a) ==> |w| >= 3 && (|w| == 3 ==> w == "api");
    }
    assert Join(["lo", "gin"]) == "login" by {
      assert Join(["lo", "gin"]) == "lo" + Join(["gin"]);
      assert Join(["gin"]) == "gin" + Join([]);
    }
    assert ToLower("login") == "login";
    assert Contains("login", "login") by {
      assert OccursAt("login", "login", 0);
    }
  }

  /** With no keyword, every attack can come out of the random pick. */
  lemma RandomPickCoversAll(targets: seq<string>)
    requires forall a :: !Mentions(ToLower(Join(targets)), a)
    ensures Classify(targets, 0.0) == Sql
    ensures Classify(targets, 0.5) == Xss
    ensures Classify(targets, 0.9) == Mitm
  {
    ClassifyIsFirstMention(targets, 0.0);
    ClassifyIsFirstMention(targets, 0.5);
    ClassifyIsFirstMention(targets, 0.9);
  }

  // ---------------------------------------------------------------------------
  // Simulated progress

  /** `Math.floor(Math.random() * 10) + 1`: what one tick adds. */
  function Increment(roll: real): (d: int)
    requires 0.0 <= roll < 1.0
    ensures 1 <= d <= 10
  {
    RandomIndex(roll, 10) + 1
  }

  /** Every increment from 1 to 10 is drawn for some roll. */
  lemma IncrementCoversRange(d: int)
    requires 1 <= d <= 10
    ensures 0.0 <= (d - 1) as real / 10.0 < 1.0
    ensures Increment((d - 1) as real / 10.0) == d
  {
    var roll := (d - 1) as real / 10.0;
    assert roll * 10.0 == (d - 1) as real;
  }

  /** The progress ticker stops (clears its interval) when it sees this value. */
  predicate Stops(prev: int)
  {
    prev >= 100
  }

  /** The value the progress updater returns for `prev`. */
  function NextProgress(prev: int, roll: real): int
    requires 0.0 <= roll < 1.0
  {
    if Stops(prev) then 100 else prev + Increment(roll)
  }

  /**
   * Below 100 a tick raises progress by 1 to 10, so never past 109; from 100
   * on, the tick that stops the ticker puts it at exactly 100.
   */
  lemma TickBounds(prev: int, roll: real)
    requires 0.0 <= roll < 1.0
    ensures !Stops(prev) ==> prev < NextProgress(prev, roll) <= prev + 10
    ensures 0 <= prev < 100 ==> NextProgress(prev, roll) <= 109
    ensures Stops(prev) <==> NextProgress(prev, roll) == 100 && prev >= 100
  {
  }

  /** The ticker can overshoot: from 99 a tick may show 109, and the stopping tick then lowers it to 100. */
  lemma TickOvershoots()
    ensures NextProgress(99, 0.95) == 109
    ensures NextProgress(109, 0.0) == 100
  {
    assert (0.95 * 10.0).Floor == 9;
  }

  // ---------------------------------------------------------------------------
  // Stage display

  /** The labels of the four stage boxes. */
  const StageLabels: seq<string> := ["Initializing", "Port Scanning", "Vulnerability Detection", "Reporting"]

  /** The status line of each stage. */
  const StageTexts: seq<string> :=
    ["Setting up scan environment...", "Detecting open ports and services...",
     "Analyzing vulnerabilities...", "Generating report..."]

  /** Which stage boxes are highlighted: box `i` once `progress >= (i + 1) * 25 - 10`. */
  function Highlighted(progress: int): (hs: seq<bool>)
    ensures |hs| == |StageLabels|
  {
    seq(4, i => progress >= (i + 1) * 25 - 10)
  }

  /** How many boxes are lit: one more at each of 15, 40, 65 and 90. */
  function LitCount(progress: int): (n: nat)
    ensures n <= 4
  {
    if progress < 15 then 0
    else if progress >= 90 then 4
    else (progress + 10) / 25
  }

  /** The lit boxes are always the first `LitCount(progress)` of the four. */
  lemma HighlightedIsPrefix(progress: int)
    ensures forall i :: 0 <= i < 4 ==> (Highlighted(progress)[i] <==> i < LitCount(progress))
  {
    var n := LitCount(progress);
    forall i | 0 <= i < 4 ensures Highlighted(progress)[i] <==> i < n {
      if 15 <= progress < 90 {
        assert 25 * n <= progress + 10 < 25 * n + 25;
      }
    }
  }

  /** Which of the four bucket stages `progress` is in: buckets of 25, the last one open-ended. */
  function Stage(progress: int): (i: nat)
    ensures i < 4
  {
    if progress < 0 then 0 else if progress / 25 > 3 then 3 else progress / 25
  }

  /** The status texts the page renders: each conditional line contributes when its test holds. */
  function ShownTexts(progress: int): seq<string>
  {
    (if progress < 25 then [StageTexts[0]] else [])
    + (if progress >= 25 && progress < 50 then [StageTexts[1]] else [])
    + (if progress >= 50 && progress < 75 then [StageTexts[2]] else [])
    + (if progress >= 75 then [StageTexts[3]] else [])
  }

  /** Exactly one status text shows, the one of the stage `progress` is in. */
  lemma ExactlyOneStageText(progress: int)
    ensures ShownTexts(progress) == [StageTexts[Stage(progress)]]
  {
    if progress >= 0 {
      var q := progress / 25;
      assert 25 * q <= progress < 25 * q + 25;
    }
  }

  // ---------------------------------------------------------------------------
  // Severity lookups and the catalog

  /** The severities of the catalog's entries. */
  datatype Severity = Critical | High | Medium | Low

  /** How a severity is spelled in the catalog. */
  function SeverityName(s: Severity): string
  {
    match s
    case Critical => "critical"
    case High => "high"
    case Medium => "medium"
    case Low => "low"
  }

  /** The colour classes for a severity nobody has listed. */
  const DefaultColor: string := "bg-gray-500/20 text-gray-400 border-gray-500/40"

  /** `getSeverityColor`: colour classes for a severity string, grey for anything unknown. */
  function SeverityColor(severity: string): string
  {
    if severity == "critical" then "bg-red-500/20 text-red-400 border-red-500/40"
    else if severity == "high" then "bg-orange-500/20 text-orange-400 border-orange-500/40"
    else if severity == "medium" then "bg-yellow-500/20 text-yellow-400 border-yellow-500/40"
    else if severity == "low" then "bg-blue-500/20 text-blue-400 border-blue-500/40"
    else DefaultColor
  }

  /** The four known severities get four different colours, none of them the default. */
  lemma SeverityColorsDistinct(s: Severity, t: Severity)
    ensures SeverityColor(SeverityName(s)) != DefaultColor
    ensures SeverityColor(SeverityName(s)) == SeverityColor(SeverityName(t)) ==> s == t
  {
  }

  /** Any other string falls back to the default colour. */
  lemma UnknownSeverityColor(severity: string)
    requires forall s: Severity :: severity != SeverityName(s)
    ensures SeverityColor(severity) == DefaultColor
  {
    assert severity != SeverityName(Critical) && severity != SeverityName(High);
    assert severity != SeverityName(Medium) && severity != SeverityName(Low);
  }

  /** The severity the summary card gives each attack. */
  function AttackSeverity(a: Attack): Severity
  {
    match a
    case Sql => Critical
    case Xss => High
    case Mitm => Medium
  }

  /** The text of the summary badge: empty while idle. */
  function BadgeLabel(v: Visualization): string
  {
    match v
    case Idle => ""
    case Predicted(Sql) => "Critical"
    case Predicted(Xss) => "High"
    case Predicted(Mitm) => "Medium"
  }

  /** The colour classes of the summary badge. */
  function BadgeClass(v: Visualization): string
  {
    match v
    case Predicted(Sql) => "bg-red-500/20 text-red-400 border-red-500/40"
    case Predicted(Xss) => "bg-orange-500/20 text-orange-400 border-orange-500/40"
    case Predicted(Mitm) => "bg-yellow-500/20 text-yellow-400 border-yellow-500/40"
    case Idle => DefaultColor
  }

  /**
   * The summary badge is consistent with the severity table: its label is the
   * attack's severity, capitalised, and its colour is what `getSeverityColor`
   * gives that severity (the default while idle).
   */
  lemma BadgeAgreesWithSeverityColor(v: Visualization)
    ensures v.Predicted? ==> ToLower(BadgeLabel(v)) == SeverityName(AttackSeverity(v.attack))
    ensures BadgeClass(v) == SeverityColor(ToLower(BadgeLabel(v)))
  {
    match v
    case Idle =>
    case Predicted(Sql) =>
      assert ToLower("Critical") == "critical";
    case Predicted(Xss) =>
      assert ToLower("High") == "high";
    case Predicted(Mitm) =>
      assert ToLower("Medium") == "medium";
  }

  /** One entry of the vulnerability list. */
  datatype Vulnerability = Vulnerability(
    id: string,
    name: string,
    severity: Severity,
    description: string,
    affectedEndpoint: string,
    cve: Option<string>,
    fixAvailable: bool)

  /** The fixed catalog the results list shows, in the order it is listed. */
  const Catalog: seq<Vulnerability> := [
    Vulnerability("vuln-1", "SQL Injection in Login Form", Critical,
      "The login form is vulnerable to SQL injection attacks, potentially allowing unauthorized access to the database.",
      "/api/auth/login", Some("CVE-2022-1234"), true),
    Vulnerability("vuln-2", "Cross-Site Scripting (XSS)", High,
      "User input is not properly sanitized before being displayed, allowing potential XSS attacks.",
      "/user/profile", Some("CVE-2022-5678"), true),
    Vulnerability("vuln-3", "Outdated SSL Certificate", Medium,
      "The SSL certificate is using an outdated encryption algorithm.",
      "*.example.com", None, true),
    Vulnerability("vuln-4", "Insecure Cookie Settings", Medium,
      "Cookies do not have the 'secure' flag set, allowing them to be transmitted over unencrypted connections.",
      "Global", None, true),
    Vulnerability("vuln-5", "Missing Rate Limiting", Low,
      "API does not implement rate limiting, potentially allowing brute force attacks.",
      "/api/endpoints", None, false)
  ]

  /** The CVE line of an entry: its CVE, or a placeholder when it has none (or an empty one). */
  function CveLabel(v: Vulnerability): (text: string)
    ensures text != ""
    ensures v.cve.Some? && v.cve.value != "" ==> text == v.cve.value
  {
    match v.cve
    case Some(c) => if c != "" then c else "No CVE assigned"
    case None => "No CVE assigned"
  }

  /** The catalog's ids are `vuln-1` to `vuln-5`, so unique: they key the rendered rows. */
  lemma CatalogIdsUnique()
    ensures forall i, j :: 0 <= i < j < |Catalog| ==> Catalog[i].id != Catalog[j].id
  {
    var ids := ["vuln-1", "vuln-2", "vuln-3", "vuln-4", "vuln-5"];
    assert forall i :: 0 <= i < |Catalog| ==> Catalog[i].id == ids[i];
    assert forall i :: 0 <= i < |ids| ==> |ids[i]| == 6 && ids[i][5] == "12345"[i];
    forall i, j | 0 <= i < j < |Catalog| ensures Catalog[i].id != Catalog[j].id {
      assert ids[i][5] != ids[j][5];
    }
  }

  /** Every catalog entry has a known severity, so its badge never takes the default colour. */
  lemma CatalogColorsKnown()
    ensures forall i :: 0 <= i < |Catalog| ==> SeverityColor(SeverityName(Catalog[i].severity)) != DefaultColor
  {
    forall i | 0 <= i < |Catalog| ensures SeverityColor(SeverityName(Catalog[i].severity)) != DefaultColor {
      SeverityColorsDistinct(Catalog[i].severity, Catalog[i].severity);
    }
  }

  // ---------------------------------------------------------------------------
  // Start button

  /** The start button is disabled while scanning or while the first target is blank after trimming. */
  function StartDisabled(isScanning: bool, targets: seq<string>): bool
    requires |targets| > 0
  {
    isScanning || Trim(targets[0]) == ""
  }

  /** A scan can be started exactly when none runs and the first target has a non-whitespace character. */
  lemma StartEnabledIff(isScanning: bool, targets: seq<string>)
    requires |targets| > 0
    ensures !StartDisabled(isScanning, targets) <==>
      !isScanning && exists i :: 0 <= i < |targets[0]| && !IsJsWhitespace(targets[0][i])
  {
    TrimEmptyIffBlank(targets[0]);
  }

  // ---------------------------------------------------------------------------
  // Saved URLs

  /** A URL the user saved, with the id of its stored document. */
  datatype SavedTarget = SavedTarget(id: string, url: string)

  /** What storing a new URL gives: the new document's id, or the error's message. */
  datatype StoreOutcome = Stored(id: string) | StoreFailed(message: string)

  /** The list, messages and input box after the add-URL form is submitted. */
  datatype AddResult = AddResult(
    targets: seq<SavedTarget>,
    error: Option<string>,
    success: Option<string>,
    clearInput: bool)

  const NotSignedInError: string := "You must be logged in."
  const InvalidUrlError: string := "Please enter a valid URL (including http/https). Example: https://example.com"
  const DuplicateUrlError: string := "This URL is already added."
  const AddedMessage: string := "URL added successfully!"

  const StoreFailurePrefix: string := "Failed to add URL: "

  /** The message shown when storing fails: the prefix, then the error's message or "Unknown error". */
  function StoreFailure(message: string): (text: string)
    ensures |text| > |StoreFailurePrefix| && text[..|StoreFailurePrefix|] == StoreFailurePrefix
    ensures message != "" ==> text[|StoreFailurePrefix|..] == message
    ensures message == "" ==> text[|StoreFailurePrefix|..] == "Unknown error"
  {
    StoreFailurePrefix + (if message != "" then message else "Unknown error")
  }

  /** Some entry of the list has this URL. */
  predicate HasUrl(targets: seq<SavedTarget>, url: string)
  {
    exists i :: 0 <= i < |targets| && targets[i].url == url
  }

  /** No URL appears twice in the list. */
  predicate DistinctUrls(targets: seq<SavedTarget>)
  {
    forall i, j :: 0 <= i < j < |targets| ==> targets[i].url != targets[j].url
  }

  /**
   * Submitting the add-URL form: refuse without a signed-in user, then an
   * invalid URL, then a URL already in the list; otherwise store it and append
   * the new entry.  Storing happens only after all three checks pass.
   */
  function AddUrl(signedIn: bool, targets: seq<SavedTarget>, url: string,
                  isValidUrl: string -> bool, store: StoreOutcome): AddResult
  {
    if !signedIn then AddResult(targets, Some(NotSignedInError), None, false)
    else if !isValidUrl(url) then AddResult(targets, Some(InvalidUrlError), None, false)
    else if HasUrl(targets, url) then AddResult(targets, Some(DuplicateUrlError), None, false)
    else match store
      case Stored(id) => AddResult(targets + [SavedTarget(id, url)], None, Some(AddedMessage), true)
      case StoreFailed(m) => AddResult(targets, Some(StoreFailure(m)), None, false)
  }

  /**
   * The list grows, by exactly the new entry, if and only if the user is
   * signed in, the URL is valid and new, and storing succeeds; otherwise the
   * list is unchanged and exactly one error is shown.
   */
  lemma AddUrlOutcome(signedIn: bool, targets: seq<SavedTarget>, url: string,
                      isValidUrl: string -> bool, store: StoreOutcome)
    ensures var r := AddUrl(signedIn, targets, url, isValidUrl, store);
      var accepted := signedIn && isValidUrl(url) && !HasUrl(targets, url) && store.Stored?;
      && (accepted ==> r.targets == targets + [SavedTarget(store.id, url)] && r.error.None? && r.success.Some? && r.clearInput)
      && (!accepted ==> r.targets == targets && r.error.Some? && r.success.None? && !r.clearInput)
      && (!signedIn ==> r.error == Some(NotSignedInError))
      && (signedIn && !isValidUrl(url) ==> r.error == Some(InvalidUrlError))
      && (signedIn && isValidUrl(url) && HasUrl(targets, url) ==> r.error == Some(DuplicateUrlError))
      && (accepted ==> r.success == Some(AddedMessage))
      && (signedIn && isValidUrl(url) && !HasUrl(targets, url) && store.StoreFailed? ==> r.error == Some(StoreFailure(store.message)))
  {
  }

  /** Adding keeps a list without duplicate URLs free of duplicates. */
  lemma AddUrlKeepsDistinct(signedIn: bool, targets: seq<SavedTarget>, url: string,
                            isValidUrl: string -> bool, store: StoreOutcome)
    requires DistinctUrls(targets)
    ensures DistinctUrls(AddUrl(signedIn, targets, url, isValidUrl, store).targets)
  {
    var r := AddUrl(signedIn, targets, url, isValidUrl, store);
    if r.targets != targets {
      assert !HasUrl(targets, url);
      assert r.targets == targets + [SavedTarget(store.id, url)];
      forall i, j | 0 <= i < j < |r.targets| ensures r.targets[i].url != r.targets[j].url {
        if j == |targets| {
          assert r.targets[i] == targets[i];
        }
      }
    }
  }

  /** `targets.filter(t => t.id !== id)`. */
  function RemoveById(targets: seq<SavedTarget>, id: string): (r: seq<SavedTarget>)
    ensures |r| <= |targets|
    ensures forall t :: t in r <==> t in targets && t.id != id
  {
    if targets == [] then []
    else if targets[0].id == id then RemoveById(targets[1..], id)
    else [targets[0]] + RemoveById(targets[1..], id)
  }

  /**
   * Removal is a filter: on a concatenation it removes from each part, so the
   * kept entries stay in their order.
   */
  lemma {:induction false} RemoveByIdSplits(a: seq<SavedTarget>, b: seq<SavedTarget>, id: string)
    ensures RemoveById(a + b, id) == RemoveById(a, id) + RemoveById(b, id)
  {
    if a == [] {
      assert a + b == b;
    } else {
      assert (a + b)[1..] == a[1..] + b;
      RemoveByIdSplits(a[1..], b, id);
    }
  }

  /** Removing an id no entry has leaves the list as it is. */
  lemma {:induction false} RemoveAbsentId(targets: seq<SavedTarget>, id: string)
    requires forall i :: 0 <= i < |targets| ==> targets[i].id != id
    ensures RemoveById(targets, id) == targets
  {
    if targets != [] {
      RemoveAbsentId(targets[1..], id);
    }
  }

  /** Removing keeps a list without duplicate URLs free of duplicates. */
  lemma {:induction false} RemoveKeepsDistinct(targets: seq<SavedTarget>, id: string)
    requires DistinctUrls(targets)
    ensures DistinctUrls(RemoveById(targets, id))
  {
    if targets != [] {
      var rest := targets[1..];
      assert DistinctUrls(rest) by {
        forall i, j | 0 <= i < j < |rest| ensures rest[i].url != rest[j].url {
          assert rest[i] == targets[i + 1] && rest[j] == targets[j + 1];
        }
      }
      RemoveKeepsDistinct(rest, id);
      if targets[0].id != id {
        var r := [targets[0]] + RemoveById(rest, id);
        forall i, j | 0 <= i < j < |r| ensures r[i].url != r[j].url {
          if i == 0 {
            assert r[j] in RemoveById(rest, id);
            var k :| 0 <= k < |rest| && rest[k] == r[j];
            assert targets[k + 1] == r[j];
          }
        }
      }
    }
  }

  // ---------------------------------------------------------------------------
  // Page state

  /** The saved-URL panel: the signed-in user, their stored URLs, the input box and its messages. */
  class SavedUrlPanel {
    var user: Option<string>
    var userTargets: seq<SavedTarget>
    var newUrl: string
    var addUrlError: Option<string>
    var addUrlSuccess: Option<string>

    /** Without a signed-in user the list is empty. */
    ghost predicate Valid()
      reads this
    {
      user.None? ==> userTargets == []
    }

    constructor ()
      ensures Valid()
      ensures user.None? && userTargets == [] && newUrl == ""
      ensures addUrlError.None? && addUrlSuccess.None?
    {
      user, userTargets, newUrl := None, [], "";
      addUrlError, addUrlSuccess := None, None;
    }

    /** The sign-in listener: a user brings their stored list, signing out empties it. */
    method AuthStateChanged(u: Option<string>, stored: seq<SavedTarget>)
      requires Valid()
      modifies this
      ensures Valid()
      ensures user == u && userTargets == (if u.Some? then stored else [])
      ensures newUrl == old(newUrl) && addUrlError == old(addUrlError) && addUrlSuccess == old(addUrlSuccess)
    {
      user := u;
      if u.Some? {
        userTargets := stored;
      } else {
        userTargets := [];
      }
    }

    /** Typing into the URL box. */
    method EditNewUrl(value: string)
      requires Valid()
      modifies this`newUrl
      ensures Valid() && newUrl == value
    {
      newUrl := value;
    }

    /** Submitting the add-URL form; `store` is what storing the URL would give. */
    method HandleAddUrl(isValidUrl: string -> bool, store: StoreOutcome)
      requires Valid()
      modifies this
      ensures Valid()
      ensures var r := AddUrl(old(user).Some?, old(userTargets), old(newUrl), isValidUrl, store);
        && userTargets == r.targets
        && addUrlError == r.error && addUrlSuccess == r.success
        && newUrl == (if r.clearInput then "" else old(newUrl))
      ensures user == old(user)
      ensures DistinctUrls(old(userTargets)) ==> DistinctUrls(userTargets)
    {
      addUrlError, addUrlSuccess := None, None;
      var r := AddUrl(user.Some?, userTargets, newUrl, isValidUrl, store);
      assert DistinctUrls(userTargets) ==> DistinctUrls(r.targets) by {
        if DistinctUrls(userTargets) {
          AddUrlKeepsDistinct(user.Some?, userTargets, newUrl, isValidUrl, store);
        }
      }
      userTargets := r.targets;
      addUrlError := r.error;
      addUrlSuccess := r.success;
      if r.clearInput {
        newUrl := "";
      }
    }

    /** Removing a saved URL: nothing without a user; otherwise filtered out once the delete succeeds. */
    method HandleRemoveUrl(id: string, deleted: bool)
      requires Valid()
      modifies this`userTargets
      ensures Valid()
      ensures userTargets == if old(user).Some? && deleted then RemoveById(old(userTargets), id) else old(userTargets)
    {
      if user.None? {
        return;
      }
      if deleted {
        userTargets := RemoveById(userTargets, id);
      }
    }
  }

  /**
   * The scan side of the page: the target inputs, the simulated run and the
   * chosen visualisation.  While `isScanning` holds, the progress interval is
   * live; the tick that clears the interval is the one that resets it.
   */
  class Scanner {
    var targets: seq<string>
    var isScanning: bool
    var progress: int
    var scanComplete: bool
    var visualization: Visualization

    /**
     * There is always a target input; a run is either idle at 0, running at
     * most 109, or complete at exactly 100.
     */
    ghost predicate Valid()
      reads this
    {
      && |targets| >= 1
      && (isScanning ==> !scanComplete && 0 <= progress <= 109)
      && (!isScanning ==> (progress == 0 && !scanComplete) || (progress == 100 && scanComplete))
      && (isScanning || scanComplete ==> visualization.Predicted?)
    }

    constructor ()
      ensures Valid()
      ensures targets == [""] && !isScanning && progress == 0 && !scanComplete && visualization == Idle
    {
      targets := [""];
      isScanning, progress, scanComplete := false, 0, false;
      visualization := Idle;
    }

    /** `addTarget`: one more, empty, input. */
    method AddTarget()
      requires Valid()
      modifies this`targets
      ensures Valid() && targets == old(targets) + [""]
    {
      targets := targets + [""];
    }

    /** `updateTarget`: input `index` gets `value`, the others and the count stay. */
    method UpdateTarget(index: nat, value: string)
      requires Valid() && index < |targets|
      modifies this`targets
      ensures Valid()
      ensures |targets| == |old(targets)| && targets[index] == value
      ensures forall j :: 0 <= j < |targets| && j != index ==> targets[j] == old(targets)[j]
    {
      targets := targets[index := value];
    }

    /** `removeTarget`: input `index` goes, unless it is the last one left. */
    method RemoveTarget(index: nat)
      requires Valid() && index < |targets|
      modifies this`targets
      ensures Valid()
      ensures targets == if |old(targets)| > 1 then old(targets)[..index] + old(targets)[index + 1..] else old(targets)
    {
      if |targets| > 1 {
        targets := targets[..index] + targets[index + 1..];
      }
    }

    /** Whether the start button is disabled. */
    function StartIsDisabled(): bool
      reads this
      requires Valid()
    {
      StartDisabled(isScanning, targets)
    }

    /**
     * `startScan`: reset the run, classify the targets and arm the ticker.
     * Its only caller is the start button, which is disabled while scanning.
     */
    method StartScan(roll: real)
      requires Valid() && !isScanning && 0.0 <= roll < 1.0
      modifies this`isScanning, this`scanComplete, this`progress, this`visualization
      ensures Valid()
      ensures isScanning && !scanComplete && progress == 0
      ensures visualization == Predicted(Classify(targets, roll))
    {
      isScanning := true;
      scanComplete := false;
      progress := 0;
      visualization := Predicted(Classify(targets, roll));
    }

    /** A press of the start button: starts a scan exactly when the button is enabled. */
    method PressStart(roll: real) returns (started: bool)
      requires Valid() && 0.0 <= roll < 1.0
      modifies this`isScanning, this`scanComplete, this`progress, this`visualization
      ensures Valid()
      ensures started == !old(StartIsDisabled())
      ensures started ==> isScanning && !scanComplete && progress == 0 && visualization == Predicted(Classify(targets, roll))
      ensures !started ==> (isScanning == old(isScanning) && scanComplete == old(scanComplete)
                            && progress == old(progress) && visualization == old(visualization))
    {
      started := !StartIsDisabled();
      if started {
        StartScan(roll);
      }
    }

    /** One firing of the progress interval. */
    method Tick(roll: real)
      requires Valid() && isScanning && 0.0 <= roll < 1.0
      modifies this`isScanning, this`scanComplete, this`progress
      ensures Valid()
      ensures progress == NextProgress(old(progress), roll)
      ensures isScanning == !Stops(old(progress)) && scanComplete == Stops(old(progress))
    {
      TickBounds(progress, roll);
      if progress >= 100 {
        isScanning := false;
        scanComplete := true;
        progress := 100;
      } else {
        progress := progress + Increment(roll);
      }
    }

    /**
     * The interval firing until it clears itself, `rolls(i)` being the random
     * number of the `i`-th firing: the run ends complete at 100 after at most
     * 101 ticks.
     */
    method RunTicker(rolls: nat -> real) returns (ticks: nat)
      requires Valid() && isScanning
      requires forall i :: 0.0 <= rolls(i) < 1.0
      modifies this`isScanning, this`scanComplete, this`progress
      ensures Valid()
      ensures !isScanning && scanComplete && progress == 100
      ensures 1 <= ticks <= 101
    {
      ticks := 0;
      while isScanning
        invariant Valid()
        invariant isScanning ==> ticks <= progress && (progress >= 100 ==> ticks <= 100)
        invariant !isScanning ==> scanComplete && 1 <= ticks <= 101
        decreases if isScanning then 200 - progress else 0
      {
        Tick(rolls(ticks));
        ticks := ticks + 1;
      }
    }
  }
}
