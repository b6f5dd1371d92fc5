/** The `execute` operation of the get-sheet-by-url tool, as a function of
    its input URL and of the abstract behaviour of everything it calls.

    The handler builds a client (which may throw), extracts the direct-id
    token from the URL, and, when there is one, awaits exactly one SDK call
    `getSheetByDirectIdToken(token, undefined, undefined, undefined,
    undefined)`. Its result is one of three shapes: an error envelope for an
    invalid URL, a success envelope with the serialized sheet, or, for any
    thrown or rejected error, a bare string that is not an envelope.

    What the model does not see is passed in: the outcome of constructing
    the client, the settled SDK promise for each token, the serializer
    (`JSON.stringify(sheet, null, 2)`) and the error stringifier (the
    template literal `${error}`). */
module GetSheetByUrl {
  import opened Wrappers
  import opened DirectIdToken

  /** One element of the `content` array; the only kind used is `"text"`. */
  datatype ContentBlock = TextBlock(text: string)

  /** What `execute` returns. `isError == false` stands for an envelope
      without the `isError` property. */
  datatype Response =
    | Envelope(content: seq<ContentBlock>, isError: bool)
    | BareString(s: string)

  /** An argument passed to an SDK method: a string or JavaScript's
      `undefined`. */
  datatype Arg = Str(s: string) | Undefined

  /** One recorded invocation of `getSheetByDirectIdToken`. */
  datatype FetchCall = FetchCall(args: seq<Arg>)

  /** The response together with the SDK calls made while producing it. */
  datatype Execution = Execution(response: Response, calls: seq<FetchCall>)

  const FailurePrefix: string := "Failed to get sheet: "

  /** Scheme and host of the service's sheet URLs, as in the unit tests. */
  const ServiceHost: string := "https://app.smartsheet.com"
  const InvalidUrlMessage: string := "Invalid URL format"

  /** The envelope returned when the URL holds no token. */
  const InvalidUrlResponse: Response :=
    Envelope([TextBlock(FailurePrefix + InvalidUrlMessage)], true)

  /** `execute(input)`. `construct` is the outcome of `new SmartsheetAPI(…)`,
      `fetch(t)` the settled promise of the SDK call for token `t`, and
      `serialize(v)` the outcome of `JSON.stringify(v, null, 2)`, which runs
      inside the same `try` and so may throw too. */
  function Execute<V, E>(
    url: string,
    construct: Outcome<E>,
    fetch: string -> Result<V, E>,
    serialize: V -> Result<string, E>,
    show: E -> string
  ): (x: Execution)
    // at most one outbound call, and only with a token the URL yields
    ensures |x.calls| <= 1
    ensures |x.calls| == 1 <==> construct.Pass? && exists i :: MatchesAt(url, i)
    ensures |x.calls| == 1 ==>
            x.calls[0] == FetchCall([Str(ExtractToken(url).value), Undefined, Undefined, Undefined, Undefined])
    // the invalid-URL envelope exactly when the client was built and no token was found
    ensures x.response == InvalidUrlResponse <==> construct.Pass? && forall i :: !MatchesAt(url, i)
    ensures x.response.Envelope? && x.response.isError ==> x.calls == []
    // every thrown or rejected error becomes a bare string, never an envelope
    ensures x.response.BareString? <==>
            || construct.Fail?
            || (|x.calls| == 1 && fetch(ExtractToken(url).value).Failure?)
            || (|x.calls| == 1 && fetch(ExtractToken(url).value).Success? &&
                serialize(fetch(ExtractToken(url).value).value).Failure?)
    ensures construct.Fail? ==> x == Execution(BareString(FailurePrefix + show(construct.error)), [])
    ensures |x.calls| == 1 && fetch(ExtractToken(url).value).Failure? ==>
            x.response == BareString(FailurePrefix + show(fetch(ExtractToken(url).value).error))
    ensures |x.calls| == 1 && fetch(ExtractToken(url).value).Success? &&
            serialize(fetch(ExtractToken(url).value).value).Failure? ==>
            x.response == BareString(FailurePrefix + show(serialize(fetch(ExtractToken(url).value).value).error))
    // a serialized sheet becomes one text block with that text and no isError
    ensures |x.calls| == 1 && fetch(ExtractToken(url).value).Success? &&
            serialize(fetch(ExtractToken(url).value).value).Success? ==>
            x.response == Envelope([TextBlock(serialize(fetch(ExtractToken(url).value).value).value)], false)
  {
    match construct
    case Fail(e) => Execution(BareString(FailurePrefix + show(e)), [])
    case Pass =>
      var directIdToken := ExtractToken(url);
      if directIdToken.None? || directIdToken.value == [] then
        Execution(InvalidUrlResponse, [])
      else
        var call := FetchCall([Str(directIdToken.value), Undefined, Undefined, Undefined, Undefined]);
        match fetch(directIdToken.value)
        case Failure(e) => Execution(BareString(FailurePrefix + show(e)), [call])
        case Success(sheet) =>
          match serialize(sheet)
          case Failure(e) => Execution(BareString(FailurePrefix + show(e)), [call])
          case Success(text) => Execution(Envelope([TextBlock(text)], false), [call])
  }

  /** The `!directIdToken` test also rejects the empty string, but the
      extraction never yields one: the test is true exactly when there is
      no match. */
  lemma EmptyTokenNeverRejected(url: string)
    ensures (ExtractToken(url).None? || ExtractToken(url).value == []) <==> ExtractToken(url).None?
  {
  }

  /** No match starts in the scheme and host of the service's sheet URLs,
      whatever follows them. */
  lemma NoMatchInServiceHost(rest: string)
    ensures forall j :: 0 <= j < |ServiceHost| ==> !MatchesAt(ServiceHost + rest, j)
  {
    var host := "https:" + "//" + "app.smartsheet.com";
    assert |host| == |ServiceHost|;
    assert host == ServiceHost;
    NoMatchInHostParts(host, rest);
  }

  /** The same, with the host spelled as the three pieces its slashes
      separate. */
  lemma NoMatchInHostParts(host: string, rest: string)
    requires host == "https:" + "//" + "app.smartsheet.com"
    ensures forall j :: 0 <= j < |host| ==> !MatchesAt(host + rest, j)
  {
    var u := host + rest;
    assert u[..6] == "https:";
    NoMatchWithoutSlash(u, 0, 6);
    assert u[8..26] == "app.smartsheet.com";
    NoMatchWithoutSlash(u, 8, 26);
    assert u[7] == '/' && u[8] == 'a';
    if MarkerAt(u, 6) { MarkerAtStart(u, 6); }
    if MarkerAt(u, 7) { MarkerAtStart(u, 7); }
  }

  /** Any sheet URL on the service's host yields the token after `/sheets/`. */
  lemma ServiceSheetUrlToken(t: string)
    requires t != [] && NoDelimiter(t)
    ensures ExtractToken(ServiceHost + (Marker + t)) == Some(t)
  {
    var tail := Marker + t;
    NoMatchInServiceHost(tail);
    ExtractTokenSkipsPrefix(ServiceHost, tail);
    assert tail == Marker + t + "";
    ExtractTokenAfterMarker(t, "");
  }

  /** The URL of the success test yields the token `abc123def456`. */
  lemma SheetUrlToken(url: string)
    requires url == "https://app.smartsheet.com/sheets/abc123def456"
    ensures ExtractToken(url) == Some("abc123def456")
  {
    var t := "abc123def456";
    var u := ServiceHost + (Marker + t);
    assert |u| == |url|;
    assert u == url;
    ServiceSheetUrlToken(t);
  }

  /** The path `/invalid-url` holds no match. */
  lemma InvalidPathNoToken(path: string)
    requires path == "/invalid-url"
    ensures ExtractToken(path) == None
  {
    assert path[1..] == "invalid-url";
    NoMatchWithoutSlash(path, 1, |path|);
    assert path[1] == 'i';
    if MarkerAt(path, 0) { MarkerAtStart(path, 0); }
  }

  /** The URL of the invalid-URL test yields no token. */
  lemma InvalidUrlNoToken(url: string)
    requires url == "https://app.smartsheet.com/invalid-url"
    ensures ExtractToken(url) == None
  {
    var path := "/invalid-url";
    var u := ServiceHost + path;
    assert |u| == |url|;
    assert u == url;
    NoMatchInServiceHost(path);
    ExtractTokenSkipsPrefix(ServiceHost, path);
    InvalidPathNoToken(path);
  }

  /** For that sheet URL the token is fetched with four unset trailing
      arguments, and the outcome of that one call decides the response. */
  lemma ExecuteSheetUrl<V, E>(
    url: string, fetch: string -> Result<V, E>, serialize: V -> Result<string, E>, show: E -> string)
    requires url == "https://app.smartsheet.com/sheets/abc123def456"
    ensures Execute(url, Pass, fetch, serialize, show).calls ==
            [FetchCall([Str("abc123def456"), Undefined, Undefined, Undefined, Undefined])]
    ensures fetch("abc123def456").Success? && serialize(fetch("abc123def456").value).Success? ==>
            Execute(url, Pass, fetch, serialize, show).response ==
            Envelope([TextBlock(serialize(fetch("abc123def456").value).value)], false)
    ensures fetch("abc123def456").Failure? ==>
            Execute(url, Pass, fetch, serialize, show).response ==
            BareString("Failed to get sheet: " + show(fetch("abc123def456").error))
  {
    SheetUrlToken(url);
  }

  /** For the URL without a `/sheets/` segment: the invalid-URL envelope,
      and no call. */
  lemma ExecuteInvalidUrl<V, E>(
    url: string, fetch: string -> Result<V, E>, serialize: V -> Result<string, E>, show: E -> string)
    requires url == "https://app.smartsheet.com/invalid-url"
    ensures Execute(url, Pass, fetch, serialize, show) ==
            Execution(Envelope([TextBlock("Failed to get sheet: Invalid URL format")], true), [])
  {
    InvalidUrlNoToken(url);
    assert FailurePrefix + InvalidUrlMessage == "Failed to get sheet: Invalid URL format";
  }
}
