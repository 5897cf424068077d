/**
 * command.go: a Command built from an http.Request. NewFromRequest applies the
 * options, checks the URL, pre-parses the request (build), and runs the
 * builder stages (construct); String renders the tokens.
 *
 * What net/http computes for the builder is taken as given: the URL's string
 * form, the result of BasicAuth, the String form of each cookie, and header
 * keys already in canonical form. Go's map iteration order is the parameter
 * `order`, an enumeration of the header keys.
 */
module Curl {
  import opened Wrappers
  import opened Strings
  import opened Streams
  import Options
  import opened Quoting

  datatype Error = NilURL | ReadBody

  /** The parts of an http.Request the builder reads. Only the body is ever replaced. */
  class Request {
    const httpMethod: string
    const url: Option<string>
    const header: map<string, seq<string>>
    const host: string
    const contentLength: int
    const basicAuth: Option<(string, string)>
    const cookies: seq<string>
    var body: Body

    constructor (httpMethod: string, url: Option<string>, header: map<string, seq<string>>, host: string,
                 contentLength: int, basicAuth: Option<(string, string)>, cookies: seq<string>, body: Body)
      ensures this.httpMethod == httpMethod && this.url == url && this.header == header && this.host == host
      ensures this.contentLength == contentLength && this.basicAuth == basicAuth
      ensures this.cookies == cookies && this.body == body
    {
      this.httpMethod := httpMethod;
      this.url := url;
      this.header := header;
      this.host := host;
      this.contentLength := contentLength;
      this.basicAuth := basicAuth;
      this.cookies := cookies;
      this.body := body;
    }
  }

  /** parsedRequest: what build pre-computes from the request. */
  datatype ParsedRequest = ParsedRequest(
    request: Request?,
    hasAuth: bool,
    user: string,
    pass: string,
    hasData: bool,
    body: Option<seq<byte>>,
    hasCookies: bool,
    cookies: string,
    bodyTruncated: bool,
    contentLength: int)

  /** The zero parsedRequest a fresh Command holds. */
  function ZeroParsed(): ParsedRequest
  {
    ParsedRequest(null, false, "", "", false, None, false, "", false, 0)
  }

  // ----- build: peeking at the body -----

  /** The number of bytes build keeps at most: the limit, or the default for a non-positive one. */
  function PeekSize(maxBodySize: int): (n: nat)
    ensures n > 0
  {
    if maxBodySize <= 0 then Options.DefaultMaxBodySize else maxBodySize
  }

  /** The count build asks Peek for: peekSize + 1 in Go's 64-bit int, which wraps past MaxInt. */
  function PeekCount(maxBodySize: Options.GoInt): (c: int)
    ensures c == PeekSize(maxBodySize) + 1 || (PeekSize(maxBodySize) == Options.MaxInt && c == Options.MinInt)
    ensures c < 0 <==> CountWraps(maxBodySize)
  {
    var n := PeekSize(maxBodySize);
    if n == Options.MaxInt then Options.MinInt else n + 1
  }

  /** A limit of math.MaxInt: peekSize + 1 wraps to a negative count. */
  predicate CountWraps(maxBodySize: Options.GoInt)
  {
    PeekSize(maxBodySize) == Options.MaxInt
  }

  /**
   * The bodies for which build reaches bytes.Buffer.Truncate with a length
   * beyond the bytes it holds, which panics in Go. Peek(n + 1) with n + 1
   * beyond the buffer reports ErrBufferFull with at most BufferSize bytes, so
   * any limit above BufferSize short of math.MaxInt, or a limit of exactly
   * BufferSize on a shorter body, gets there.
   */
  predicate BuildPanics(body: Body, maxBodySize: Options.GoInt)
  {
    && HasStream(body)
    && !CountWraps(maxBodySize)
    && PeekSize(maxBodySize) >= BufferSize
    && (PeekSize(maxBodySize) > BufferSize || |Contents(body).data| < BufferSize)
  }

  /**
   * The bodies for which build reports a read error: any body when the count
   * wraps (bufio.ErrNegativeCount), else a failing source that ends within
   * the peek.
   */
  predicate ReadFails(body: Body, maxBodySize: Options.GoInt)
  {
    && HasStream(body)
    && (|| CountWraps(maxBodySize)
        || (&& Contents(body).hardError
            && |Contents(body).data| <= PeekSize(maxBodySize)
            && PeekSize(maxBodySize) + 1 <= BufferSize))
  }

  /** What build leaves as the body when it fails: the source untouched after a refused count, else drained. */
  function BodyAfterFailure(body: Body, maxBodySize: Options.GoInt): Body
    requires HasStream(body)
  {
    if CountWraps(maxBodySize) then Plain(Contents(body)) else Plain(Stream([], true))
  }

  /**
   * What a successful build records: the request, its credentials, content
   * length and cookies, and, for a body that is neither nil nor http.NoBody,
   * the first bytes up to the limit, with the truncation flag set when the
   * body is longer than the limit or the limit reaches the reader's buffer.
   */
  predicate ParsedFrom(m: ParsedRequest, r: Request, body: Body, maxBodySize: Options.GoInt)
  {
    && m.request == r
    && m.hasAuth == r.basicAuth.Some?
    && (m.user, m.pass) == (if r.basicAuth.Some? then r.basicAuth.value else ("", ""))
    && m.contentLength == r.contentLength
    && m.hasCookies == (|r.cookies| > 0)
    && m.cookies == Join(r.cookies, "; ")
    && m.hasData == HasStream(body)
    && m.body.Some? == m.hasData
    && (if m.hasData then
          var data := Contents(body).data;
          var n := PeekSize(maxBodySize);
          m.body.value == data[..Min(|data|, n)] && m.bodyTruncated == (|data| > n || n >= BufferSize)
        else !m.bodyTruncated)
  }

  /** The body after build reads back exactly as before: a nil or empty body is left alone. */
  predicate Restored(before: Body, after: Body)
  {
    if HasStream(before) then after.Buffered? && Contents(after) == Contents(before) else after == before
  }

  /**
   * parsedRequest.build: records the request's fields, peeks at one byte more
   * than the limit, keeps the limit's worth when more was there, and puts the
   * reader back as the body. A read error leaves the body drained.
   */
  method Build(r: Request, cfg: Options.Config) returns (res: Result<ParsedRequest, Error>)
    requires !BuildPanics(r.body, cfg.maxBodySize)
    modifies r`body
    ensures res.Failure? <==> ReadFails(old(r.body), cfg.maxBodySize)
    ensures res.Failure? ==> res.error == ReadBody && r.body == BodyAfterFailure(old(r.body), cfg.maxBodySize)
    ensures res.Success? ==> ParsedFrom(res.value, r, old(r.body), cfg.maxBodySize) && Restored(old(r.body), r.body)
  {
    var user, pass := "", "";
    if r.basicAuth.Some? {
      user, pass := r.basicAuth.value.0, r.basicAuth.value.1;
    }
    var m := ParsedRequest(r, r.basicAuth.Some?, user, pass, false, None, false, "", false, r.contentLength);
    if |r.cookies| > 0 {
      m := m.(hasCookies := true, cookies := Join(r.cookies, "; "));
    }
    if !HasStream(r.body) {
      return Success(m);
    }
    var peekSize := PeekSize(cfg.maxBodySize);
    var original := Contents(r.body);
    var b := NewReader(original);
    var p := Peek(b, PeekCount(cfg.maxBodySize));
    if p.err == HardError || p.err == NegativeCount {
      r.body := Plain(p.reader.src);
      return Failure(ReadBody);
    }
    var captured := p.bytes;
    var truncated := false;
    if p.err == NoError || p.err == BufferFull {
      truncated := true;
      captured := Truncate(captured, peekSize);
    }
    r.body := Buffered(p.reader);
    m := m.(hasData := true, body := Some(captured), bodyTruncated := truncated);
    return Success(m);
  }

  // ----- The builder stages -----

  /** buildOptions: -s, -m N, -k, --compressed and -L, each when configured, in that order. */
  function BuildOptions(args: seq<string>, cfg: Options.Config): (r: seq<string>)
    ensures |args| <= |r| && r[..|args|] == args
  {
    var style := cfg.style;
    var silent := if cfg.flags.silent then [OptionForm(style, "-s", "--silent")] else [];
    var timeout := if cfg.requestTimeout > 0 then [OptionForm(style, "-m", "--max-time"), Decimal(cfg.requestTimeout)] else [];
    var insecure := if cfg.flags.insecure then [OptionForm(style, "-k", "--insecure")] else [];
    var compressed := if cfg.flags.compressed then ["--compressed"] else [];
    var location := if cfg.flags.location then [OptionForm(style, "-L", "--location")] else [];
    args + silent + timeout + insecure + compressed + location
  }

  /** buildAuth: -u 'user:pass' when the request has credentials; Authorization is then handled. */
  function BuildAuth(args: seq<string>, cfg: Options.Config, m: ParsedRequest, handled: set<string>): (r: (seq<string>, set<string>))
    ensures |args| <= |r.0| && r.0[..|args|] == args && handled <= r.1
  {
    if !m.hasAuth then (args, handled)
    else (args + [OptionForm(cfg.style, "-u", "--user"), Escape(cfg.style, m.user + ":" + m.pass)], handled + {"Authorization"})
  }

  /** buildCookies: -b 'cookies' when the request has cookies; Cookie is then handled. */
  function BuildCookies(args: seq<string>, cfg: Options.Config, m: ParsedRequest, handled: set<string>): (r: (seq<string>, set<string>))
    ensures |args| <= |r.0| && r.0[..|args|] == args && handled <= r.1
  {
    if !m.hasCookies then (args, handled)
    else (args + [OptionForm(cfg.style, "-b", "--cookie"), Escape(cfg.style, m.cookies)], handled + {"Cookie"})
  }

  /** The text appended to a truncated body: with the total when the Content-Length is known. */
  function TruncationMarker(truncated: bool, contentLength: int): string
  {
    if !truncated then ""
    else if contentLength > 0 then "... (truncated body, total " + Decimal(contentLength) + " bytes)"
    else "... (truncated body)"
  }

  /** buildData: --data-raw and the captured body, marked when truncated, whenever a body was captured. */
  function BuildData(args: seq<string>, cfg: Options.Config, m: ParsedRequest): (r: seq<string>)
    ensures |args| <= |r| && r[..|args|] == args
  {
    if m.body.None? then args
    else
      var body := AsString(m.body.value) + TruncationMarker(m.bodyTruncated, m.contentLength);
      args + ["--data-raw", Escape(cfg.style, body)]
  }

  /** The method curl would use anyway: GET, or POST when there is data. */
  function EffectiveMethod(m: ParsedRequest): string
    requires m.request != null
  {
    if m.request.httpMethod != "" then m.request.httpMethod
    else if m.hasData then "POST" else "GET"
  }

  /** buildMethod: -X METHOD unless the method is the one curl picks by itself. */
  function BuildMethod(args: seq<string>, cfg: Options.Config, m: ParsedRequest): (r: seq<string>)
    requires m.request != null
    ensures |args| <= |r| && r[..|args|] == args
  {
    var httpMethod := EffectiveMethod(m);
    var isGetDefault := httpMethod == "GET" && !m.hasData;
    var isPostDefault := httpMethod == "POST" && m.hasData;
    if !isGetDefault && !isPostDefault then args + [OptionForm(cfg.style, "-X", "--request"), Escape(cfg.style, httpMethod)]
    else args
  }

  /** buildURL: the escaped URL, as the last argument so far. */
  function BuildURL(args: seq<string>, cfg: Options.Config, m: ParsedRequest): (r: seq<string>)
    requires m.request != null && m.request.url.Some?
    ensures |r| == |args| + 1 && r[..|args|] == args
    ensures Unescape(cfg.style, r[|args|]) == Some(m.request.url.value)
  {
    EscapeRoundTrip(cfg.style, m.request.url.value);
    args + [Escape(cfg.style, m.request.url.value)]
  }

  /** The stages of construct before the headers: the main arguments and the headers they handled. */
  function Stages(cfg: Options.Config, m: ParsedRequest): (seq<string>, set<string>)
    requires m.request != null && m.request.url.Some?
  {
    var a0 := BuildOptions(["curl"], cfg);
    var (a1, h1) := BuildAuth(a0, cfg, m, {});
    var (a2, h2) := BuildCookies(a1, cfg, m, h1);
    var a3 := BuildData(a2, cfg, m);
    var a4 := BuildMethod(a3, cfg, m);
    (BuildURL(a4, cfg, m), h2)
  }

  function MainArgs(cfg: Options.Config, m: ParsedRequest): seq<string>
    requires m.request != null && m.request.url.Some?
  {
    Stages(cfg, m).0
  }

  function Handled(cfg: Options.Config, m: ParsedRequest): set<string>
    requires m.request != null && m.request.url.Some?
  {
    Stages(cfg, m).1
  }

  // ----- buildHeaders -----

  function HeaderEntry(key: string, values: seq<string>): string
  {
    key + ": " + Join(values, ", ")
  }

  /** The entries the loop over `keys` collects: every key but Host and the handled ones, in that order. */
  function Entries(header: map<string, seq<string>>, handled: set<string>, keys: seq<string>): seq<string>
  {
    if keys == [] then []
    else
      var k := keys[|keys| - 1];
      Entries(header, handled, keys[..|keys| - 1])
      + (if k in header && k !in handled && k != "Host" then [HeaderEntry(k, header[k])] else [])
  }

  /** One more key of the loop adds at most its own entry. */
  lemma EntriesStep(header: map<string, seq<string>>, handled: set<string>, keys: seq<string>, i: nat)
    requires i < |keys|
    ensures var k := keys[i];
      Entries(header, handled, keys[..i + 1])
      == Entries(header, handled, keys[..i]) + (if k in header && k !in handled && k != "Host" then [HeaderEntry(k, header[k])] else [])
  {
    assert keys[..i + 1][..i] == keys[..i];
  }

  /** The host the loop has settled on after the keys `keys`. */
  function HostSeen(header: map<string, seq<string>>, host: string, handled: set<string>, keys: seq<string>): string
  {
    if host == "" && "Host" in keys && "Host" in header && "Host" !in handled then Join(header["Host"], ", ") else host
  }

  lemma HostSeenStep(header: map<string, seq<string>>, host: string, handled: set<string>, keys: seq<string>, i: nat)
    requires i < |keys|
    ensures var k := keys[i];
      var before := HostSeen(header, host, handled, keys[..i]);
      HostSeen(header, host, handled, keys[..i + 1])
      == if k in header && k !in handled && k == "Host" && before == "" then Join(header[k], ", ") else before
  {
    assert keys[..i + 1] == keys[..i] + [keys[i]];
  }

  /** Once every key has been seen, the loop's host is the resolved one. */
  lemma HostSeenAll(header: map<string, seq<string>>, host: string, handled: set<string>, keys: seq<string>)
    requires multiset(keys) == multiset(header.Keys)
    ensures HostSeen(header, host, handled, keys) == ResolvedHost(header, host, handled)
  {
    if "Host" in header {
      assert "Host" in multiset(keys);
    }
  }

  /** The host of the Host line: the request's Host field, else the Host header unless handled. */
  function ResolvedHost(header: map<string, seq<string>>, host: string, handled: set<string>): string
  {
    if host != "" then host
    else if "Host" in header && "Host" !in handled then Join(header["Host"], ", ")
    else ""
  }

  /** The unsorted header list: the entries, then one Host line when the host is not empty. */
  function HeaderList(header: map<string, seq<string>>, host: string, handled: set<string>, keys: seq<string>): seq<string>
  {
    var h := ResolvedHost(header, host, handled);
    Entries(header, handled, keys) + (if h != "" then ["Host: " + h] else [])
  }

  function HeaderToken(style: Options.OutputStyle, entry: string): string
  {
    Join([OptionForm(style, "-H", "--header"), Escape(style, entry)], " ")
  }

  /** One -H token per entry, in order. */
  function Render(style: Options.OutputStyle, entries: seq<string>): (r: seq<string>)
    ensures |r| == |entries|
    ensures forall i :: 0 <= i < |entries| ==> r[i] == HeaderToken(style, entries[i])
  {
    if entries == [] then []
    else Render(style, entries[..|entries| - 1]) + [HeaderToken(style, entries[|entries| - 1])]
  }

  function HeaderTokens(style: Options.OutputStyle, header: map<string, seq<string>>, host: string,
                        handled: set<string>, keys: seq<string>): seq<string>
  {
    if |header| == 0 && host == "" then []
    else Render(style, Sort(HeaderList(header, host, handled, keys)))
  }

  /**
   * buildHeaders: loops over the header map in the order `order` gives,
   * collecting entries and the host, then sorts them and renders each as a
   * -H token.
   */
  method BuildHeaders(cfg: Options.Config, m: ParsedRequest, handled: set<string>, order: seq<string>)
    returns (headerTokens: seq<string>)
    requires m.request != null
    requires multiset(order) == multiset(m.request.header.Keys)
    ensures headerTokens == HeaderTokens(cfg.style, m.request.header, m.request.host, handled, order)
  {
    var r := m.request;
    if |r.header| == 0 && r.host == "" {
      return [];
    }
    var host := r.host;
    var headers: seq<string> := [];
    var i := 0;
    while i < |order|
      invariant 0 <= i <= |order|
      invariant headers == Entries(r.header, handled, order[..i])
      invariant host == HostSeen(r.header, r.host, handled, order[..i])
    {
      var key := order[i];
      assert key in multiset(r.header.Keys);
      var values := r.header[key];
      EntriesStep(r.header, handled, order, i);
      HostSeenStep(r.header, r.host, handled, order, i);
      if key in handled {
      } else if key == "Host" {
        if host == "" {
          host := Join(values, ", ");
        }
      } else {
        headers := headers + [HeaderEntry(key, values)];
      }
      i := i + 1;
    }
    assert order[..|order|] == order;
    HostSeenAll(r.header, r.host, handled, order);
    if host != "" {
      headers := headers + ["Host: " + host];
    }
    assert headers == HeaderList(r.header, r.host, handled, order);
    var sorted := Sort(headers);
    headerTokens := [];
    var j := 0;
    while j < |sorted|
      invariant 0 <= j <= |sorted|
      invariant headerTokens == Render(cfg.style, sorted[..j])
    {
      assert sorted[..j + 1][..j] == sorted[..j] && sorted[..j + 1][j] == sorted[j];
      headerTokens := headerTokens + [HeaderToken(cfg.style, sorted[j])];
      j := j + 1;
    }
    assert sorted[..|sorted|] == sorted;
  }

  /** assembleTokens: the main arguments joined into the first token, then the header tokens. */
  function AssembleTokens(mainArgs: seq<string>, headerArgs: seq<string>): (r: seq<string>)
    ensures |r| == |headerArgs| + 1 && r[1..] == headerArgs
    ensures mainArgs != [] ==> Join(r, " ") == Join(mainArgs + headerArgs, " ")
  {
    var tokens := [Join(mainArgs, " ")] + headerArgs;
    if mainArgs == [] then tokens else JoinFlatten(mainArgs, headerArgs, " "); tokens
  }

  /** The tokens construct produces. */
  function Tokens(cfg: Options.Config, m: ParsedRequest, order: seq<string>): seq<string>
    requires m.request != null && m.request.url.Some?
  {
    AssembleTokens(MainArgs(cfg, m),
                   HeaderTokens(cfg.style, m.request.header, m.request.host, Handled(cfg, m), order))
  }

  /** The separator String puts between tokens. */
  function Separator(style: Options.OutputStyle): string
  {
    if style.useMultiLine then " " + style.lineContinuation + "\n" else " "
  }

  /** A cURL command: its tokens, its configuration and the pre-parsed request. */
  class Command {
    var tokens: seq<string>
    var cfg: Options.Config
    var model: ParsedRequest

    /** A zero Command with the default body limit. */
    constructor ()
      ensures tokens == [] && cfg == Options.Initial() && model == ZeroParsed()
    {
      tokens := [];
      cfg := Options.Initial();
      model := ZeroParsed();
    }

    /** construct: runs the stages in order, sharing the handled headers, and stores the tokens. */
    method Construct(order: seq<string>)
      requires model.request != null && model.request.url.Some?
      requires multiset(order) == multiset(model.request.header.Keys)
      modifies this`tokens
      ensures tokens == Tokens(cfg, model, order)
    {
      var handled: set<string> := {};
      var commandParts := ["curl"];
      commandParts := BuildOptions(commandParts, cfg);
      var afterAuth := BuildAuth(commandParts, cfg, model, handled);
      commandParts, handled := afterAuth.0, afterAuth.1;
      var afterCookies := BuildCookies(commandParts, cfg, model, handled);
      commandParts, handled := afterCookies.0, afterCookies.1;
      commandParts := BuildData(commandParts, cfg, model);
      commandParts := BuildMethod(commandParts, cfg, model);
      commandParts := BuildURL(commandParts, cfg, model);
      var headerParts := BuildHeaders(cfg, model, handled, order);
      tokens := AssembleTokens(commandParts, headerParts);
    }

    /** String: the tokens joined on one line, or one per line with the continuation character, trimmed. */
    function String(): (s: string)
      reads this
      ensures s == [] || (!IsSpace(s[0]) && !IsSpace(s[|s| - 1]))
    {
      TrimSpace(Join(tokens, Separator(cfg.style)))
    }
  }

  /**
   * NewFromRequest: applies the options in order to a zero Command, rejects a
   * nil URL, builds the parsed request and constructs the tokens.
   */
  method NewFromRequest(r: Request, opts: seq<Options.Option>, order: seq<string>) returns (res: Result<Command, Error>)
    requires multiset(order) == multiset(r.header.Keys)
    requires r.url.Some? ==> !BuildPanics(r.body, Options.ApplyAll(Options.Initial(), opts).maxBodySize)
    modifies r`body
    ensures r.url.None? ==> res == Failure(NilURL) && r.body == old(r.body)
    ensures r.url.Some? ==> (res.Failure? <==> ReadFails(old(r.body), Options.ApplyAll(Options.Initial(), opts).maxBodySize))
    ensures r.url.Some? && res.Failure? ==>
      res.error == ReadBody && r.body == BodyAfterFailure(old(r.body), Options.ApplyAll(Options.Initial(), opts).maxBodySize)
    ensures res.Success? ==>
      var c := res.value;
      && fresh(c)
      && c.cfg == Options.ApplyAll(Options.Initial(), opts)
      && ParsedFrom(c.model, r, old(r.body), c.cfg.maxBodySize)
      && Restored(old(r.body), r.body)
      && c.model.request == r && r.url.Some?
      && c.tokens == Tokens(c.cfg, c.model, order)
  {
    var c := new Command();
    var i := 0;
    while i < |opts|
      invariant 0 <= i <= |opts|
      invariant c.cfg == Options.ApplyAll(Options.Initial(), opts[..i])
      invariant c.model == ZeroParsed()
      invariant r.body == old(r.body)
    {
      assert opts[..i + 1][..i] == opts[..i];
      c.cfg := Options.Apply(c.cfg, opts[i]);
      i := i + 1;
    }
    assert opts[..|opts|] == opts;
    if r.url.None? {
      return Failure(NilURL);
    }
    var built := Build(r, c.cfg);
    if built.Failure? {
      return Failure(built.error);
    }
    c.model := built.value;
    c.Construct(order);
    return Success(c);
  }
}
