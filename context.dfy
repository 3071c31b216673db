/**
 * The scan context shared by the dashboard: `triggerScan` builds the form
 * posted to the full-scan endpoint from the options given, then moves
 * `loading`, `error` and `scanResult` through their fixed sequence.  The
 * request and reading its JSON body are one outcome passed in.
 */
module ScanContext {
  import opened Wrappers

  /** The scan types the dashboard offers. */
  datatype ScanType = Quick | Full | Custom

  /** How a scan type is spelled in the form. */
  function ScanTypeName(t: ScanType): string
  {
    match t
    case Quick => "Quick"
    case Full => "Full"
    case Custom => "Custom"
  }

  /** `ScanOptions`: every option may be left out. */
  datatype ScanOptions = ScanOptions(
    url: Option<string>,
    scanType: Option<ScanType>,
    username: Option<string>,
    password: Option<string>)

  /** `{}`, the options before any scan. */
  const NoOptions: ScanOptions := ScanOptions(None, None, None, None)

  /** One entry of the posted form. */
  datatype Field = Field(name: string, value: string)

  /** JavaScript truthiness of an optional string: present and not empty. */
  predicate Truthy(o: Option<string>)
  {
    o.Some? && o.value != ""
  }

  /** The four form entries `triggerScan` may append. */
  datatype FormKey = UrlKey | ScanTypeKey | UsernameKey | PasswordKey

  /** The name each entry is appended under. */
  function FormName(k: FormKey): string
  {
    match k
    case UrlKey => "url"
    case ScanTypeKey => "scan_type"
    case UsernameKey => "username"
    case PasswordKey => "password"
  }

  /** The order the entries are appended in. */
  const FieldOrder: seq<FormKey> := [UrlKey, ScanTypeKey, UsernameKey, PasswordKey]

  /** The option an entry carries, as a string; the scan type is spelled by its name. */
  function OptionFor(options: ScanOptions, k: FormKey): Option<string>
  {
    match k
    case UrlKey => options.url
    case ScanTypeKey => if options.scanType.Some? then Some(ScanTypeName(options.scanType.value)) else None
    case UsernameKey => options.username
    case PasswordKey => options.password
  }

  /** The entry for `k` if its option is truthy, else nothing. */
  function FieldIfTruthy(options: ScanOptions, k: FormKey): seq<Field>
  {
    var o := OptionFor(options, k);
    if Truthy(o) then [Field(FormName(k), o.value)] else []
  }

  /** The entries for `keys` whose option is truthy, in the order of `keys`. */
  function PresentFields(options: ScanOptions, keys: seq<FormKey>): (form: seq<Field>)
    ensures |form| <= |keys|
    ensures forall k :: k in keys && Truthy(OptionFor(options, k)) ==> Field(FormName(k), OptionFor(options, k).value) in form
    ensures forall f :: f in form ==> f.value != ""
  {
    if keys == [] then []
    else FieldIfTruthy(options, keys[0]) + PresentFields(options, keys[1..])
  }

  /** Every entry of the form comes from one of `keys` whose option is truthy, and carries that option's value. */
  lemma {:induction false} PresentFieldsOnlyTruthy(options: ScanOptions, keys: seq<FormKey>)
    ensures forall f :: f in PresentFields(options, keys) ==>
        exists k :: k in keys && Truthy(OptionFor(options, k)) && f == Field(FormName(k), OptionFor(options, k).value)
  {
    if keys != [] {
      PresentFieldsOnlyTruthy(options, keys[1..]);
      var head := FieldIfTruthy(options, keys[0]);
      var rest := PresentFields(options, keys[1..]);
      assert PresentFields(options, keys) == head + rest;
      forall f | f in head + rest
        ensures exists k :: k in keys && Truthy(OptionFor(options, k)) && f == Field(FormName(k), OptionFor(options, k).value)
      {
        if f in head {
          assert keys[0] in keys;
        } else {
          assert f in rest;
          var k :| k in keys[1..] && Truthy(OptionFor(options, k)) && f == Field(FormName(k), OptionFor(options, k).value);
          assert k in keys;
        }
      }
    }
  }

  /** `xs` is `ys` with some elements left out, the rest in the same order. */
  predicate Subsequence(xs: seq<string>, ys: seq<string>)
  {
    if xs == [] then true
    else if ys == [] then false
    else if xs[0] == ys[0] then Subsequence(xs[1..], ys[1..])
    else Subsequence(xs, ys[1..])
  }

  /** The names of a form's entries, in order. */
  function Names(form: seq<Field>): (names: seq<string>)
    ensures |names| == |form| && forall i :: 0 <= i < |form| ==> names[i] == form[i].name
  {
    if form == [] then [] else [form[0].name] + Names(form[1..])
  }

  /** Leaving entries out keeps the rest in order: the names of the form follow the order of `keys`. */
  lemma {:induction false} PresentFieldsKeepOrder(options: ScanOptions, keys: seq<FormKey>)
    ensures Subsequence(Names(PresentFields(options, keys)), seq(|keys|, i requires 0 <= i < |keys| => FormName(keys[i])))
  {
    var all := seq(|keys|, i requires 0 <= i < |keys| => FormName(keys[i]));
    if keys != [] {
      PresentFieldsKeepOrder(options, keys[1..]);
      var tail := seq(|keys[1..]|, i requires 0 <= i < |keys[1..]| => FormName(keys[1..][i]));
      assert all[1..] == tail;
      var rest := PresentFields(options, keys[1..]);
      if Truthy(OptionFor(options, keys[0])) {
        var form := PresentFields(options, keys);
        assert form == [Field(FormName(keys[0]), OptionFor(options, keys[0]).value)] + rest;
        assert Names(form)[1..] == Names(rest);
      } else {
        assert PresentFields(options, keys) == rest;
        SkipKeepsSubsequence(Names(rest), all);
      }
    }
  }

  /** A subsequence of a sequence's tail is a subsequence of the whole. */
  lemma {:induction false} SkipKeepsSubsequence(xs: seq<string>, ys: seq<string>)
    requires ys != [] && Subsequence(xs, ys[1..])
    ensures Subsequence(xs, ys)
    decreases |ys|
  {
    if xs != [] && xs[0] == ys[0] {
      assert ys[1..] != [];
      if xs[1..] == [] {
      } else {
        SubsequenceOfTail(xs, ys[1..]);
        SkipKeepsSubsequence(xs[1..], ys[1..]);
      }
    }
  }

  /** Dropping the head of a subsequence keeps it a subsequence. */
  lemma {:induction false} SubsequenceOfTail(xs: seq<string>, ys: seq<string>)
    requires xs != [] && Subsequence(xs, ys)
    ensures ys != [] && Subsequence(xs[1..], ys[1..])
    decreases |ys|
  {
    if xs[0] != ys[0] {
      if xs[1..] != [] {
        SubsequenceOfTail(xs, ys[1..]);
        SkipKeepsSubsequence(xs[1..], ys[1..]);
      }
    }
  }

  /** Over `FieldOrder`, the present entries are the four optional entries in turn. */
  lemma FieldOrderForm(options: ScanOptions)
    ensures PresentFields(options, FieldOrder) == FieldIfTruthy(options, UrlKey) + FieldIfTruthy(options, ScanTypeKey)
                                                  + FieldIfTruthy(options, UsernameKey) + FieldIfTruthy(options, PasswordKey)
  {
    var keys := FieldOrder;
    assert PresentFields(options, keys[3..]) == FieldIfTruthy(options, PasswordKey) + PresentFields(options, []);
    assert PresentFields(options, keys[2..]) == FieldIfTruthy(options, UsernameKey) + PresentFields(options, keys[3..]);
    assert PresentFields(options, keys[1..]) == FieldIfTruthy(options, ScanTypeKey) + PresentFields(options, keys[2..]);
  }

  /** The form `triggerScan` posts: one `append` per truthy option, in the order of `FieldOrder`. */
  method BuildForm(options: ScanOptions) returns (form: seq<Field>)
    ensures form == PresentFields(options, FieldOrder)
  {
    form := [];
    if Truthy(options.url) {
      form := form + [Field("url", options.url.value)];
    }
    if options.scanType.Some? {
      form := form + [Field("scan_type", ScanTypeName(options.scanType.value))];
    }
    if Truthy(options.username) {
      form := form + [Field("username", options.username.value)];
    }
    if Truthy(options.password) {
      form := form + [Field("password", options.password.value)];
    }
    FieldOrderForm(options);
    assert form == FieldIfTruthy(options, UrlKey) + FieldIfTruthy(options, ScanTypeKey)
                 + FieldIfTruthy(options, UsernameKey) + FieldIfTruthy(options, PasswordKey);
  }

  /** What reading the response body gives: the parsed data, or the parse error's message. */
  datatype Body<D> = Parsed(data: D) | Unparsable(message: string)

  /** What the request gives: a response, with its `ok` flag and its body, or a thrown error's message. */
  datatype FetchOutcome<D> = Responded(ok: bool, body: Body<D>) | Failed(message: string)

  /** How the `try` block ends: with the data, or with the message of what it threw. */
  datatype Settled<D> = Succeeded(data: D) | Threw(message: string)

  /** A response that is not ok is thrown as this message, without reading the body. */
  const ScanFailedMessage: string := "Scan failed"

  /** The `try` block of `triggerScan` for a given request outcome. */
  function Settle<D>(outcome: FetchOutcome<D>): Settled<D>
  {
    match outcome
    case Failed(m) => Threw(m)
    case Responded(false, _) => Threw(ScanFailedMessage)
    case Responded(true, Parsed(d)) => Succeeded(d)
    case Responded(true, Unparsable(m)) => Threw(m)
  }

  /**
   * The scan succeeds exactly on an ok response with a readable body; any
   * response that is not ok fails with "Scan failed"; a thrown request or an
   * unreadable body fails with its own message.
   */
  lemma SettleCases<D>(outcome: FetchOutcome<D>)
    ensures Settle(outcome).Succeeded? <==> outcome.Responded? && outcome.ok && outcome.body.Parsed?
    ensures Settle(outcome).Succeeded? ==> Settle(outcome).data == outcome.body.data
    ensures outcome.Responded? && !outcome.ok ==> Settle(outcome) == Threw(ScanFailedMessage)
    ensures outcome.Failed? ==> Settle(outcome) == Threw(outcome.message)
    ensures outcome.Responded? && outcome.ok && outcome.body.Unparsable? ==> Settle(outcome) == Threw(outcome.body.message)
  {
  }

  /** `err.message || 'Unknown error'`: never empty, and the message itself when there is one. */
  function ErrorText(message: string): (text: string)
    ensures text != ""
    ensures message != "" ==> text == message
  {
    if message != "" then message else "Unknown error"
  }

  /** The four pieces of context state. */
  datatype State<D> = State(scanResult: Option<D>, scanOptions: ScanOptions, loading: bool, error: Option<string>)

  /** `ScanProvider`: the state shared with the dashboard. */
  class ScanProvider<D> {
    var scanResult: Option<D>
    var scanOptions: ScanOptions
    var loading: bool
    var error: Option<string>

    /** The state as one value. */
    function Current(): State<D>
      reads this
    {
      State(scanResult, scanOptions, loading, error)
    }

    constructor ()
      ensures Current() == State(None, NoOptions, false, None)
    {
      scanResult, scanOptions, loading, error := None, NoOptions, false, None;
    }

    /** `setScanResult`, exposed to the dashboard: only the result changes. */
    method SetScanResult(r: Option<D>)
      modifies this
      ensures Current() == old(Current()).(scanResult := r)
    {
      scanResult := r;
    }

    /** `setScanOptions`, exposed to the dashboard: only the options change. */
    method SetScanOptions(o: ScanOptions)
      modifies this
      ensures Current() == old(Current()).(scanOptions := o)
    {
      scanOptions := o;
    }

    /** The three updates on entry to `triggerScan`. */
    method Begin(options: ScanOptions)
      modifies this
      ensures Current() == State(old(scanResult), options, true, None)
    {
      loading := true;
      error := None;
      scanOptions := options;
    }

    /** The end of `triggerScan`: record the data or the error, then stop loading. */
    method Finish(outcome: FetchOutcome<D>)
      modifies this
      ensures !loading && scanOptions == old(scanOptions)
      ensures Settle(outcome).Succeeded? ==> scanResult == Some(Settle(outcome).data) && error == old(error)
      ensures Settle(outcome).Threw? ==> error == Some(ErrorText(Settle(outcome).message)) && scanResult == old(scanResult)
    {
      match Settle(outcome) {
        case Succeeded(d) => scanResult := Some(d);
        case Threw(m) => error := Some(ErrorText(m));
      }
      loading := false;
    }

    /**
     * `triggerScan`: `during` is the state while the request is in flight;
     * `request` is what the request and reading its body give for the form.
     */
    method TriggerScan(options: ScanOptions, request: seq<Field> -> FetchOutcome<D>)
      returns (form: seq<Field>, ghost during: State<D>)
      modifies this
      ensures form == PresentFields(options, FieldOrder)
      ensures during == State(old(scanResult), options, true, None)
      ensures !loading && scanOptions == options
      ensures Settle(request(form)).Succeeded? ==> scanResult == Some(Settle(request(form)).data) && error.None?
      ensures Settle(request(form)).Threw? ==>
        error == Some(ErrorText(Settle(request(form)).message)) && scanResult == old(scanResult)
    {
      Begin(options);
      during := Current();
      form := BuildForm(options);
      Finish(request(form));
    }
  }
}
