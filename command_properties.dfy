/**
 * What the Command built by NewFromRequest promises: the captured body, the
 * layout of the main line, the method decision table, the truncation marker,
 * the header lines, and how String renders the tokens.
 */
module CommandProperties {
  import opened Wrappers
  import opened Strings
  import opened Streams
  import Options
  import opened Quoting
  import opened Curl

  // ----- The captured body -----

  /**
   * Below the reader's buffer the idealised contract holds: the body is
   * marked truncated exactly when it is longer than the limit, a truncated
   * capture holds exactly the limit's worth, and an untruncated one the whole
   * body.
   */
  lemma CapturedBodyWithinBuffer(m: ParsedRequest, r: Request, body: Body, maxBodySize: Options.GoInt)
    requires ParsedFrom(m, r, body, maxBodySize) && HasStream(body)
    requires PeekSize(maxBodySize) < BufferSize
    ensures var data := Contents(body).data;
      && m.body.Some?
      && (m.bodyTruncated <==> |data| > PeekSize(maxBodySize))
      && (m.bodyTruncated ==> |m.body.value| == PeekSize(maxBodySize) && m.body.value == data[..PeekSize(maxBodySize)])
      && (!m.bodyTruncated ==> m.body.value == data)
  {
    var data := Contents(body).data;
    assert data[..|data|] == data;
  }

  /** With a limit of exactly BufferSize, a body of exactly that size is kept whole yet marked truncated. */
  lemma FullBufferMarkedTruncated(m: ParsedRequest, r: Request, data: seq<byte>)
    requires |data| == BufferSize
    requires ParsedFrom(m, r, Plain(Stream(data, false)), BufferSize)
    ensures !BuildPanics(Plain(Stream(data, false)), BufferSize)
    ensures m.body == Some(data) && m.bodyTruncated
  {
    assert data[..BufferSize] == data;
  }

  /**
   * BuildPanics is exactly the case where Peek(peekSize + 1) reports success
   * or a full buffer, so that build marks the body truncated, yet hands back
   * fewer than peekSize bytes for Truncate(peekSize) to cut to.
   */
  lemma BuildPanicsExact(body: Body, maxBodySize: Options.GoInt)
    requires HasStream(body) && !CountWraps(maxBodySize)
    ensures var p := Peek(NewReader(Contents(body)), PeekCount(maxBodySize));
      BuildPanics(body, maxBodySize)
      <==> (p.err == NoError || p.err == BufferFull) && PeekSize(maxBodySize) > |p.bytes|
  {
  }

  /**
   * A limit above BufferSize short of math.MaxInt makes build panic, even on
   * a three-byte body: Peek returns the three bytes with a full-buffer error,
   * and build then truncates to 5000 bytes.
   */
  lemma LargeLimitPanics()
    ensures var body := Plain(Stream([97, 98, 99], false));
      var p := Peek(NewReader(Contents(body)), PeekCount(5000));
      && p.err == BufferFull && p.bytes == [97, 98, 99]
      && BuildPanics(body, 5000)
    ensures !BuildPanics(Plain(Stream([97, 98, 99], false)), Options.DefaultMaxBodySize)
  {
  }

  /**
   * A limit of math.MaxInt never panics: the count wraps, Peek refuses it,
   * and build reports a read error for every body, leaving the body to read
   * as before.
   */
  lemma MaxIntLimitFails(body: Body)
    requires HasStream(body)
    ensures PeekCount(Options.MaxInt) < 0
    ensures !BuildPanics(body, Options.MaxInt) && ReadFails(body, Options.MaxInt)
    ensures Contents(BodyAfterFailure(body, Options.MaxInt)) == Contents(body)
  {
  }

  /** A failing body reports an error only when it ends within the peek; beyond the buffer the error is lost. */
  lemma ReadErrorMaskedBeyondBuffer(body: Body, maxBodySize: Options.GoInt)
    requires HasStream(body) && Contents(body).hardError
    ensures PeekSize(maxBodySize) >= BufferSize && !CountWraps(maxBodySize) ==> !ReadFails(body, maxBodySize)
    ensures PeekSize(maxBodySize) < BufferSize ==> (ReadFails(body, maxBodySize) <==> |Contents(body).data| <= PeekSize(maxBodySize))
  {
  }

  // ----- Each stage only appends -----

  lemma OptionsAppend(args: seq<string>, cfg: Options.Config)
    ensures BuildOptions(args, cfg) == args + BuildOptions([], cfg)
  {
  }

  lemma AuthAppend(args: seq<string>, cfg: Options.Config, m: ParsedRequest, handled: set<string>)
    ensures BuildAuth(args, cfg, m, handled).0 == args + BuildAuth([], cfg, m, handled).0
    ensures BuildAuth(args, cfg, m, handled).1 == BuildAuth([], cfg, m, {}).1 + handled
  {
  }

  lemma CookiesAppend(args: seq<string>, cfg: Options.Config, m: ParsedRequest, handled: set<string>)
    ensures BuildCookies(args, cfg, m, handled).0 == args + BuildCookies([], cfg, m, handled).0
    ensures BuildCookies(args, cfg, m, handled).1 == BuildCookies([], cfg, m, {}).1 + handled
  {
  }

  lemma DataAppend(args: seq<string>, cfg: Options.Config, m: ParsedRequest)
    ensures BuildData(args, cfg, m) == args + BuildData([], cfg, m)
  {
  }

  lemma MethodAppend(args: seq<string>, cfg: Options.Config, m: ParsedRequest)
    requires m.request != null
    ensures BuildMethod(args, cfg, m) == args + BuildMethod([], cfg, m)
  {
  }

  /**
   * The main line is "curl", then the options, credentials, cookies, data and
   * method stages in that order, and the escaped URL last.
   */
  lemma MainArgsLayout(cfg: Options.Config, m: ParsedRequest)
    requires m.request != null && m.request.url.Some?
    ensures MainArgs(cfg, m)
      == ["curl"] + BuildOptions([], cfg) + BuildAuth([], cfg, m, {}).0 + BuildCookies([], cfg, m, {}).0
         + BuildData([], cfg, m) + BuildMethod([], cfg, m) + [Escape(cfg.style, m.request.url.value)]
  {
    var a0 := BuildOptions(["curl"], cfg);
    OptionsAppend(["curl"], cfg);
    var a1 := BuildAuth(a0, cfg, m, {}).0;
    AuthAppend(a0, cfg, m, {});
    var h1 := BuildAuth(a0, cfg, m, {}).1;
    var a2 := BuildCookies(a1, cfg, m, h1).0;
    CookiesAppend(a1, cfg, m, h1);
    CookiesAppend([], cfg, m, h1);
    assert BuildCookies([], cfg, m, h1).0 == BuildCookies([], cfg, m, {}).0;
    var a3 := BuildData(a2, cfg, m);
    DataAppend(a2, cfg, m);
    var a4 := BuildMethod(a3, cfg, m);
    MethodAppend(a3, cfg, m);
  }

  /** The headers the stages handle: Authorization with credentials, Cookie with cookies, nothing else. */
  lemma HandledHeaders(cfg: Options.Config, m: ParsedRequest)
    requires m.request != null && m.request.url.Some?
    ensures Handled(cfg, m) == (if m.hasAuth then {"Authorization"} else {}) + (if m.hasCookies then {"Cookie"} else {})
  {
    var a0 := BuildOptions(["curl"], cfg);
    var h1 := BuildAuth(a0, cfg, m, {}).1;
    assert h1 == (if m.hasAuth then {"Authorization"} else {});
  }

  // ----- The stages one by one -----

  /** An escaped token starts with a quote, so it is never taken for a flag. */
  lemma EscapedIsNotFlag(style: Options.OutputStyle, s: string, flag: string)
    requires flag != [] && flag[0] == '-'
    ensures Escape(style, s) != flag
  {
  }

  /** The tokens of the options stage, one group per option. */
  lemma OptionsParts(cfg: Options.Config)
    ensures var st := cfg.style;
      BuildOptions([], cfg)
      == (if cfg.flags.silent then [OptionForm(st, "-s", "--silent")] else [])
         + (if cfg.requestTimeout > 0 then [OptionForm(st, "-m", "--max-time"), Decimal(cfg.requestTimeout)] else [])
         + (if cfg.flags.insecure then [OptionForm(st, "-k", "--insecure")] else [])
         + (if cfg.flags.compressed then ["--compressed"] else [])
         + (if cfg.flags.location then [OptionForm(st, "-L", "--location")] else [])
  {
  }

  /** A number rendered in decimal is never a flag. */
  lemma DecimalIsNotFlag(n: nat, flag: string)
    requires flag != [] && flag[0] == '-'
    ensures Decimal(n) != flag
  {
    assert IsDigit(Decimal(n)[0]);
  }

  /** Each flag appears exactly when its option is set. */
  lemma OptionsStage(cfg: Options.Config)
    ensures var o := BuildOptions([], cfg); var st := cfg.style;
      && (OptionForm(st, "-s", "--silent") in o <==> cfg.flags.silent)
      && (OptionForm(st, "-m", "--max-time") in o <==> cfg.requestTimeout > 0)
      && (OptionForm(st, "-k", "--insecure") in o <==> cfg.flags.insecure)
      && ("--compressed" in o <==> cfg.flags.compressed)
      && (OptionForm(st, "-L", "--location") in o <==> cfg.flags.location)
  {
    OptionsParts(cfg);
    if cfg.requestTimeout > 0 {
      var st := cfg.style;
      DecimalIsNotFlag(cfg.requestTimeout, OptionForm(st, "-s", "--silent"));
      DecimalIsNotFlag(cfg.requestTimeout, OptionForm(st, "-m", "--max-time"));
      DecimalIsNotFlag(cfg.requestTimeout, OptionForm(st, "-k", "--insecure"));
      DecimalIsNotFlag(cfg.requestTimeout, "--compressed");
      DecimalIsNotFlag(cfg.requestTimeout, OptionForm(st, "-L", "--location"));
    }
  }

  /** The options stage never emits --data-raw, and the token after -m is the timeout in decimal. */
  lemma OptionsValues(cfg: Options.Config)
    ensures "--data-raw" !in BuildOptions([], cfg)
    ensures var o := BuildOptions([], cfg);
      cfg.requestTimeout > 0 ==>
        exists i :: && 0 <= i < |o| - 1
                    && o[i] == OptionForm(cfg.style, "-m", "--max-time")
                    && o[i + 1] == Decimal(cfg.requestTimeout)
                    && ParseDecimal(o[i + 1]) == cfg.requestTimeout
  {
    OptionsParts(cfg);
    if cfg.requestTimeout > 0 {
      DecimalIsNotFlag(cfg.requestTimeout, "--data-raw");
      ParseDecimalInverts(cfg.requestTimeout);
      var o := BuildOptions([], cfg);
      var i := if cfg.flags.silent then 1 else 0;
      assert o[i] == OptionForm(cfg.style, "-m", "--max-time");
      assert o[i + 1] == Decimal(cfg.requestTimeout);
    }
  }

  /** With credentials, -u carries a token that reads back as user:pass. */
  lemma AuthStage(cfg: Options.Config, m: ParsedRequest)
    ensures var a := BuildAuth([], cfg, m, {}).0;
      && (a == [] <==> !m.hasAuth)
      && (m.hasAuth ==> |a| == 2 && a[0] == OptionForm(cfg.style, "-u", "--user")
                        && Unescape(cfg.style, a[1]) == Some(m.user + ":" + m.pass))
  {
    EscapeRoundTrip(cfg.style, m.user + ":" + m.pass);
  }

  /** With cookies, -b carries a token that reads back as the joined cookies. */
  lemma CookieStage(cfg: Options.Config, m: ParsedRequest)
    ensures var c := BuildCookies([], cfg, m, {}).0;
      && (c == [] <==> !m.hasCookies)
      && (m.hasCookies ==> |c| == 2 && c[0] == OptionForm(cfg.style, "-b", "--cookie")
                           && Unescape(cfg.style, c[1]) == Some(m.cookies))
  {
    EscapeRoundTrip(cfg.style, m.cookies);
  }

  /** The marker: none unless truncated, and the total, readable back, when the Content-Length is positive. */
  lemma MarkerRule(truncated: bool, contentLength: int)
    ensures var mk := TruncationMarker(truncated, contentLength);
      && (mk == "" <==> !truncated)
      && (truncated && contentLength <= 0 ==> mk == "... (truncated body)")
      && (truncated && contentLength > 0 ==>
            && |mk| > 34
            && mk[..27] == "... (truncated body, total "
            && mk[|mk| - 7..] == " bytes)"
            && AllDigits(mk[27..|mk| - 7])
            && ParseDecimal(mk[27..|mk| - 7]) == contentLength)
  {
    if truncated && contentLength > 0 {
      var mk := TruncationMarker(truncated, contentLength);
      var d := Decimal(contentLength);
      assert mk == "... (truncated body, total " + d + " bytes)";
      assert mk[27..|mk| - 7] == d;
      ParseDecimalInverts(contentLength);
    }
  }

  /** --data-raw appears exactly when a body was captured, with a token that reads back as the body and its marker. */
  lemma DataStage(cfg: Options.Config, m: ParsedRequest)
    ensures var d := BuildData([], cfg, m);
      && (d == [] <==> m.body.None?)
      && (m.body.Some? ==>
            && |d| == 2 && d[0] == "--data-raw"
            && Unescape(cfg.style, d[1]) == Some(AsString(m.body.value) + TruncationMarker(m.bodyTruncated, m.contentLength)))
  {
    if m.body.Some? {
      EscapeRoundTrip(cfg.style, AsString(m.body.value) + TruncationMarker(m.bodyTruncated, m.contentLength));
    }
  }

  /**
   * The method decision table: -X is left out exactly for a GET or empty
   * method without data and a POST or empty method with data; otherwise it
   * carries a token that reads back as the request's own method.
   */
  lemma MethodStage(cfg: Options.Config, m: ParsedRequest)
    requires m.request != null
    ensures var x := BuildMethod([], cfg, m); var verb := m.request.httpMethod;
      && (x == [] <==> (!m.hasData && (verb == "" || verb == "GET")) || (m.hasData && (verb == "" || verb == "POST")))
      && (x != [] ==>
            |x| == 2 && x[0] == OptionForm(cfg.style, "-X", "--request") && Unescape(cfg.style, x[1]) == Some(verb) && verb != "")
  {
    EscapeRoundTrip(cfg.style, EffectiveMethod(m));
  }

  /** Only the data stage emits --data-raw: the credentials, cookie and method stages never do. */
  lemma OtherStagesNeverData(cfg: Options.Config, m: ParsedRequest)
    requires m.request != null
    ensures "--data-raw" !in BuildAuth([], cfg, m, {}).0
    ensures "--data-raw" !in BuildCookies([], cfg, m, {}).0
    ensures "--data-raw" !in BuildMethod([], cfg, m)
  {
    EscapedIsNotFlag(cfg.style, m.user + ":" + m.pass, "--data-raw");
    EscapedIsNotFlag(cfg.style, m.cookies, "--data-raw");
    EscapedIsNotFlag(cfg.style, EffectiveMethod(m), "--data-raw");
  }

  /** The main line starts with curl and ends with a token that reads back as the URL. */
  lemma MainArgsEnds(cfg: Options.Config, m: ParsedRequest)
    requires m.request != null && m.request.url.Some?
    ensures var a := MainArgs(cfg, m);
      && |a| >= 2 && a[0] == "curl"
      && a[|a| - 1] == Escape(cfg.style, m.request.url.value)
      && Unescape(cfg.style, a[|a| - 1]) == Some(m.request.url.value)
  {
    MainArgsLayout(cfg, m);
    EscapeRoundTrip(cfg.style, m.request.url.value);
  }

  /** --data-raw is on the main line exactly when a body was captured. */
  lemma DataFlagIff(cfg: Options.Config, m: ParsedRequest)
    requires m.request != null && m.request.url.Some?
    ensures "--data-raw" in MainArgs(cfg, m) <==> m.body.Some?
  {
    var o := BuildOptions([], cfg);
    var au := BuildAuth([], cfg, m, {}).0;
    var co := BuildCookies([], cfg, m, {}).0;
    var da := BuildData([], cfg, m);
    var me := BuildMethod([], cfg, m);
    var u := Escape(cfg.style, m.request.url.value);
    MainArgsLayout(cfg, m);
    assert MainArgs(cfg, m) == ["curl"] + o + au + co + da + me + [u];
    OptionsValues(cfg);
    OtherStagesNeverData(cfg, m);
    EscapedIsNotFlag(cfg.style, m.request.url.value, "--data-raw");
    assert "--data-raw" in da <==> m.body.Some?;
    OnlyInMiddle("--data-raw", ["curl"], o, au, co, da, me, [u]);
  }

  lemma OnlyInMiddle(x: string, p0: seq<string>, p1: seq<string>, p2: seq<string>, p3: seq<string>,
                     mid: seq<string>, p4: seq<string>, p5: seq<string>)
    requires x !in p0 && x !in p1 && x !in p2 && x !in p3 && x !in p4 && x !in p5
    ensures x in p0 + p1 + p2 + p3 + mid + p4 + p5 <==> x in mid
  {
  }

  // ----- The header lines -----

  /** Collecting over two runs of keys is collecting over each in turn. */
  lemma {:induction false} EntriesAppend(header: map<string, seq<string>>, handled: set<string>, a: seq<string>, b: seq<string>)
    ensures Entries(header, handled, a + b) == Entries(header, handled, a) + Entries(header, handled, b)
  {
    if b == [] {
      assert a + b == a;
    } else {
      var init := b[..|b| - 1];
      EntriesAppend(header, handled, a, init);
      assert (a + b)[..|a + b| - 1] == a + init;
      assert (a + b)[|a + b| - 1] == b[|b| - 1];
    }
  }

  /** Where an element of a sequence sits, and what is left without it. */
  lemma IndexOf(b: seq<string>, x: string) returns (j: nat)
    requires x in multiset(b)
    ensures j < |b| && b[j] == x
    ensures multiset(b[..j] + b[j + 1..]) == multiset(b) - multiset{x}
  {
    j :| j < |b| && b[j] == x;
    assert b == b[..j] + [b[j]] + b[j + 1..];
  }

  /** Visiting one key in the middle of a run contributes the same entries as visiting it last. */
  lemma EntriesAround(header: map<string, seq<string>>, handled: set<string>, b: seq<string>, j: nat)
    requires j < |b|
    ensures multiset(Entries(header, handled, b))
      == multiset(Entries(header, handled, b[..j] + b[j + 1..])) + multiset(Entries(header, handled, [b[j]]))
  {
    var before, x, after := b[..j], b[j], b[j + 1..];
    assert b == before + [x] + after;
    EntriesAppend(header, handled, before + [x], after);
    EntriesAppend(header, handled, before, [x]);
    EntriesAppend(header, handled, before, after);
  }

  /** The entries collected depend only on which keys are visited, not on the order. */
  lemma {:induction false} EntriesPermutation(header: map<string, seq<string>>, handled: set<string>, a: seq<string>, b: seq<string>)
    requires multiset(a) == multiset(b)
    ensures multiset(Entries(header, handled, a)) == multiset(Entries(header, handled, b))
    decreases |a|
  {
    if a == [] {
      assert |multiset(b)| == 0;
    } else {
      var init, x := a[..|a| - 1], a[|a| - 1];
      assert a == init + [x];
      var j := IndexOf(b, x);
      var rest := b[..j] + b[j + 1..];
      EntriesPermutation(header, handled, init, rest);
      EntriesAppend(header, handled, init, [x]);
      EntriesAround(header, handled, b, j);
    }
  }

  /** Go's map order does not show in the header lines: sorting removes it. */
  lemma HeaderTokensOrderIndependent(style: Options.OutputStyle, header: map<string, seq<string>>, host: string,
                                     handled: set<string>, o1: seq<string>, o2: seq<string>)
    requires multiset(o1) == multiset(o2)
    ensures HeaderTokens(style, header, host, handled, o1) == HeaderTokens(style, header, host, handled, o2)
  {
    EntriesPermutation(header, handled, o1, o2);
    var h := ResolvedHost(header, host, handled);
    var tail := if h != "" then ["Host: " + h] else [];
    assert multiset(HeaderList(header, host, handled, o1)) == multiset(HeaderList(header, host, handled, o2));
    SortPermutationInvariant(HeaderList(header, host, handled, o1), HeaderList(header, host, handled, o2));
  }

  /** An entry is collected exactly for a key of the map that is neither Host nor handled. */
  lemma {:induction false} EntriesMembership(header: map<string, seq<string>>, handled: set<string>, keys: seq<string>, e: string)
    ensures e in Entries(header, handled, keys)
      <==> exists k :: k in keys && k in header && k !in handled && k != "Host" && e == HeaderEntry(k, header[k])
  {
    if keys != [] {
      var init := keys[..|keys| - 1];
      EntriesMembership(header, handled, init, e);
      assert keys == init + [keys[|keys| - 1]];
    }
  }

  /**
   * The header lines are one -H token per entry in sorted order: for any
   * sorted arrangement of the collected entries and the Host line, the
   * tokens render exactly that arrangement.
   */
  lemma HeaderTokensAreSortedEntries(style: Options.OutputStyle, header: map<string, seq<string>>, host: string,
                                     handled: set<string>, order: seq<string>, s: seq<string>)
    requires multiset(order) == multiset(header.Keys)
    requires Sorted(s) && multiset(s) == multiset(HeaderList(header, host, handled, order))
    ensures HeaderTokens(style, header, host, handled, order) == Render(style, s)
  {
    var list := HeaderList(header, host, handled, order);
    SortSpec(list);
    SortedUnique(Sort(list), s);
    if |header| == 0 && host == "" {
      assert order == [] by {
        assert |multiset(order)| == 0;
      }
      assert list == [];
      assert |multiset(s)| == 0;
    }
  }

  /** A header token is the -H flag, a space, and the escaped entry. */
  lemma HeaderTokenShape(style: Options.OutputStyle, entry: string)
    ensures HeaderToken(style, entry) == OptionForm(style, "-H", "--header") + " " + Escape(style, entry)
  {
    var parts := [OptionForm(style, "-H", "--header"), Escape(style, entry)];
    assert parts[1..] == [Escape(style, entry)];
    assert Join(parts[1..], " ") == Escape(style, entry);
    assert Join(parts, " ") == parts[0] + " " + Join(parts[1..], " ");
  }

  /** Each header token is the -H flag, a space, and a token that reads back as its entry. */
  lemma {:induction false} RenderAt(style: Options.OutputStyle, entries: seq<string>, i: nat)
    requires i < |entries|
    ensures Render(style, entries)[i] == OptionForm(style, "-H", "--header") + " " + Escape(style, entries[i])
    ensures Unescape(style, Escape(style, entries[i])) == Some(entries[i])
  {
    EscapeRoundTrip(style, entries[i]);
    var init := entries[..|entries| - 1];
    if i < |entries| - 1 {
      RenderAt(style, init, i);
      assert init[i] == entries[i];
    } else {
      HeaderTokenShape(style, entries[i]);
    }
  }

  // ----- Rendering -----

  /** The last header token, when there is one, ends with the closing quote. */
  lemma HeaderTokensEndQuoted(style: Options.OutputStyle, header: map<string, seq<string>>, host: string,
                              handled: set<string>, order: seq<string>)
    ensures var hs := HeaderTokens(style, header, host, handled, order);
      hs != [] ==> hs[|hs| - 1] != [] && hs[|hs| - 1][|hs[|hs| - 1]| - 1] == QuoteChar(style)
  {
    var hs := HeaderTokens(style, header, host, handled, order);
    if hs != [] {
      var e := Sort(HeaderList(header, host, handled, order));
      assert hs == Render(style, e);
      RenderAt(style, e, |e| - 1);
    }
  }

  /** The main token starts with curl and ends with the URL's closing quote. */
  lemma MainTokenEnds(cfg: Options.Config, m: ParsedRequest)
    requires m.request != null && m.request.url.Some?
    ensures var first := Join(MainArgs(cfg, m), " ");
      first != [] && first[0] == 'c' && first[|first| - 1] == QuoteChar(cfg.style)
  {
    MainArgsEnds(cfg, m);
    JoinEnds(MainArgs(cfg, m), " ");
  }

  /** The first token starts with c and the last token ends with `q`. */
  predicate Framed(t: seq<string>, q: char)
  {
    && |t| > 0 && t[0] != [] && t[0][0] == 'c'
    && t[|t| - 1] != [] && t[|t| - 1][|t[|t| - 1]| - 1] == q
  }

  /** The first token starts with curl's c and the last token ends with a closing quote. */
  lemma TokensEnds(cfg: Options.Config, m: ParsedRequest, order: seq<string>)
    requires m.request != null && m.request.url.Some?
    ensures Framed(Tokens(cfg, m, order), QuoteChar(cfg.style))
  {
    var first := Join(MainArgs(cfg, m), " ");
    var hs := HeaderTokens(cfg.style, m.request.header, m.request.host, Handled(cfg, m), order);
    assert Tokens(cfg, m, order) == [first] + hs;
    MainTokenEnds(cfg, m);
    HeaderTokensEndQuoted(cfg.style, m.request.header, m.request.host, Handled(cfg, m), order);
    ConsEnds(first, hs);
  }

  /** Trimming in String removes nothing: the command starts with curl and ends with a closing quote. */
  lemma StringTrimsNothing(cfg: Options.Config, m: ParsedRequest, order: seq<string>)
    requires m.request != null && m.request.url.Some?
    ensures Untrimmed(Join(Tokens(cfg, m, order), Separator(cfg.style)), QuoteChar(cfg.style))
  {
    TokensEnds(cfg, m, order);
    assert !IsSpace(QuoteChar(cfg.style));
    JoinedEnds(Tokens(cfg, m, order), Separator(cfg.style), QuoteChar(cfg.style));
  }

  /** Joining tokens that start with curl's c and end with a quote leaves nothing for TrimSpace to remove. */
  lemma JoinedEnds(t: seq<string>, sep: string, q: char)
    requires Framed(t, q) && !IsSpace(q)
    ensures Untrimmed(Join(t, sep), q)
  {
    JoinEnds(t, sep);
    NothingToTrim(Join(t, sep));
  }

  /** A command line that starts with curl's c, ends with quote `q` and that TrimSpace leaves as it is. */
  predicate Untrimmed(j: string, q: char)
  {
    && j != []
    && TrimSpace(j) == j
    && j[0] == 'c'
    && j[|j| - 1] == q
  }

  lemma ConsEnds<T>(x: T, xs: seq<T>)
    ensures ([x] + xs)[0] == x
    ensures ([x] + xs)[|xs|] == if xs == [] then x else xs[|xs| - 1]
  {
  }

  lemma NothingToTrim(j: string)
    requires j != [] && !IsSpace(j[0]) && !IsSpace(j[|j| - 1])
    ensures TrimSpace(j) == j
  {
  }

  /** On one line the command is every token, main and header alike, joined by single spaces. */
  lemma SingleLine(cfg: Options.Config, m: ParsedRequest, order: seq<string>)
    requires m.request != null && m.request.url.Some? && !cfg.style.useMultiLine
    ensures Join(Tokens(cfg, m, order), Separator(cfg.style))
      == Join(MainArgs(cfg, m) + HeaderTokens(cfg.style, m.request.header, m.request.host, Handled(cfg, m), order), " ")
  {
    MainArgsEnds(cfg, m);
    JoinFlatten(MainArgs(cfg, m), HeaderTokens(cfg.style, m.request.header, m.request.host, Handled(cfg, m), order), " ");
  }

  /** An empty body is still data: captured as no bytes and not truncated. */
  lemma EmptyBodyParsed(m: ParsedRequest, r: Request, maxBodySize: Options.GoInt)
    requires ParsedFrom(m, r, Plain(Stream([], false)), maxBodySize)
    requires PeekSize(maxBodySize) < BufferSize
    ensures m.hasData && m.body == Some([]) && !m.bodyTruncated
  {
  }

  /** A plain GET without options, body, credentials or cookies is curl and the quoted URL. */
  lemma PlainGet(m: ParsedRequest, url: string)
    requires m.request != null && m.request.url == Some(url)
    requires m.request.httpMethod in {"", "GET"}
    requires !m.hasAuth && !m.hasCookies && !m.hasData && m.body.None?
    ensures MainArgs(Options.Initial(), m) == ["curl", "'" + ReplaceAll(url, '\'', "'\\''") + "'"]
  {
    var cfg := Options.Initial();
    var u := Escape(cfg.style, url);
    assert u == "'" + ReplaceAll(url, '\'', "'\\''") + "'";
    assert MainArgs(cfg, m) == ["curl"] + [u] by {
      MainArgsLayout(cfg, m);
      assert BuildOptions([], cfg) == [];
      assert BuildAuth([], cfg, m, {}).0 == [];
      assert BuildCookies([], cfg, m, {}).0 == [];
      assert BuildData([], cfg, m) == [];
      assert BuildMethod([], cfg, m) == [] by {
        assert EffectiveMethod(m) == "GET";
      }
    }
  }

  /** A request with a nil body or http.NoBody records no data. */
  lemma NoBodyParsed(m: ParsedRequest, r: Request, body: Body, maxBodySize: Options.GoInt)
    requires body == NilBody || body == NoBody
    requires ParsedFrom(m, r, body, maxBodySize)
    ensures !m.hasData && m.body.None?
  {
  }

  /** Without data, a POST is spelled out as -X 'POST'. */
  lemma PostNeedsFlag(m: ParsedRequest)
    requires m.request != null && m.request.httpMethod == "POST" && !m.hasData
    ensures BuildMethod([], Options.Initial(), m) == ["-X", "'POST'"]
  {
    assert EffectiveMethod(m) == "POST";
    assert "POST" != "GET";
    assert EscapeSingle("POST") == "'POST'" by {
      assert '\'' !in "POST";
    }
  }

  lemma FourTokens(first: string, middle: seq<string>, last: string)
    requires |middle| == 2
    ensures [first] + middle + [last] == [first, middle[0], middle[1], last]
  {
  }

  /** A POST without a body (nil or http.NoBody) spells out -X 'POST'. */
  lemma PostWithoutBody(m: ParsedRequest, url: string)
    requires m.request != null && m.request.url == Some(url) && m.request.httpMethod == "POST"
    requires !m.hasAuth && !m.hasCookies && !m.hasData && m.body.None?
    ensures MainArgs(Options.Initial(), m) == ["curl", "-X", "'POST'", EscapeSingle(url)]
  {
    var cfg := Options.Initial();
    var x := BuildMethod([], cfg, m);
    PostNeedsFlag(m);
    var a := MainArgs(cfg, m);
    assert a == ["curl"] + x + [EscapeSingle(url)] by {
      MainArgsLayout(cfg, m);
    }
    FourTokens("curl", x, EscapeSingle(url));
  }

  /**
   * With no header entries and no Host, the command is a single token: the
   * main arguments joined by spaces, whatever the separator.
   */
  lemma NoHeadersOneToken(cfg: Options.Config, m: ParsedRequest, order: seq<string>)
    requires m.request != null && m.request.url.Some?
    requires |m.request.header| == 0 && m.request.host == ""
    ensures Tokens(cfg, m, order) == [Join(MainArgs(cfg, m), " ")]
    ensures Join(Tokens(cfg, m, order), Separator(cfg.style)) == Join(MainArgs(cfg, m), " ")
  {
  }

  /** A bare POST without a body or headers prints as curl -X 'POST' and the quoted URL. */
  lemma PostWithoutBodyLine(m: ParsedRequest, url: string, order: seq<string>)
    requires m.request != null && m.request.url == Some(url) && m.request.httpMethod == "POST"
    requires !m.hasAuth && !m.hasCookies && !m.hasData && m.body.None?
    requires |m.request.header| == 0 && m.request.host == ""
    ensures var cfg := Options.Initial();
      TrimSpace(Join(Tokens(cfg, m, order), Separator(cfg.style))) == "curl -X 'POST' " + EscapeSingle(url)
  {
    var cfg := Options.Initial();
    PostWithoutBody(m, url);
    NoHeadersOneToken(cfg, m, order);
    PostLine(EscapeSingle(url));
  }

  /** The four-word line of a bare POST, with nothing for TrimSpace to remove. */
  lemma PostLine(u: string)
    requires u != [] && u[|u| - 1] == '\''
    ensures TrimSpace(Join(["curl", "-X", "'POST'", u], " ")) == "curl -X 'POST' " + u
  {
    var line := Join(["curl", "-X", "'POST'", u], " ");
    assert line == "curl -X 'POST' " + u by {
      JoinFourWords("curl", "-X", "'POST'", u);
    }
    NothingToTrim(line);
  }

  lemma JoinFourWords(a: string, b: string, c: string, d: string)
    ensures Join([a, b, c, d], " ") == a + " " + b + " " + c + " " + d
  {
    var p := [a, b, c, d];
    assert p[1..] == [b, c, d] && p[1..][1..] == [c, d] && p[1..][1..][1..] == [d];
    assert Join([c, d], " ") == c + " " + d;
    assert Join([b, c, d], " ") == b + " " + (c + " " + d);
    assert Join(p, " ") == a + " " + (b + " " + (c + " " + d));
  }

  /** A POST with an empty body sends --data-raw '' and leaves -X out. */
  lemma PostWithEmptyBody(m: ParsedRequest, url: string)
    requires m.request != null && m.request.url == Some(url) && m.request.httpMethod == "POST"
    requires !m.hasAuth && !m.hasCookies && m.hasData && m.body == Some([]) && !m.bodyTruncated
    ensures MainArgs(Options.Initial(), m) == ["curl", "--data-raw", "''", EscapeSingle(url)]
  {
    var cfg := Options.Initial();
    var d := BuildData([], cfg, m);
    assert d == ["--data-raw", "''"] by {
      assert AsString([]) + TruncationMarker(false, m.contentLength) == "";
      assert EscapeSingle("") == "''";
    }
    assert BuildMethod([], cfg, m) == [] by {
      assert EffectiveMethod(m) == "POST";
    }
    assert MainArgs(cfg, m) == ["curl"] + d + [EscapeSingle(url)] by {
      MainArgsLayout(cfg, m);
    }
    FourTokens("curl", d, EscapeSingle(url));
  }

  lemma DecimalFourteen()
    ensures Decimal(14) == "14"
  {
    assert Decimal(1) == "1";
    assert DigitChar(4) == '4';
  }

  /**
   * A 14-byte body under a 10-byte limit with a Content-Length of 14: the
   * first ten bytes are kept and the data token carries the total.
   */
  lemma TruncatedBodyScenario(m: ParsedRequest, r: Request, data: seq<byte>)
    requires |data| == 14 && r.contentLength == 14
    requires ParsedFrom(m, r, Plain(Stream(data, false)), 10)
    ensures m.body == Some(data[..10]) && m.bodyTruncated
    ensures BuildData([], Options.Initial(), m)
      == ["--data-raw", EscapeSingle(AsString(data[..10]) + "... (truncated body, total 14 bytes)")]
  {
    DecimalFourteen();
    assert TruncationMarker(true, 14) == "... (truncated body, total 14 bytes)";
  }
}
