/** The header lines of a download, which may be a chain of redirects: a state machine fed one line
    at a time. The conversions `std::stoi` and `std::stoul` are parameters; `None` is an exception. */
module CurlHeaders {
  import opened Basics

  type ToInt = string -> Option<int>
  type ToNat = string -> Option<nat>

  // ----- Searching in a line -----

  /** The position of the first character that is one of `chars`, or the length. */
  function FirstOf(s: string, chars: string): (i: nat)
    ensures i <= |s|
    ensures forall j :: 0 <= j < i ==> s[j] !in chars
    ensures i < |s| ==> s[i] in chars
  {
    if s == "" || s[0] in chars then 0 else 1 + FirstOf(s[1..], chars)
  }

  function SkipSpaces(s: string): string {
    if s != "" && s[0] == ' ' then SkipSpaces(s[1..]) else s
  }

  predicate OnlySpaces(s: string) {
    forall i :: 0 <= i < |s| ==> s[i] == ' '
  }

  /** What follows the first occurrence of `pattern`. */
  function After(s: string, pattern: string): Option<string> {
    if StartsWith(s, pattern) then Some(s[|pattern|..])
    else if s == "" then None
    else After(s[1..], pattern)
  }

  function WithoutCrLf(line: string): string {
    if EndsWith(line, "\r\n") then line[..|line| - 2] else line
  }

  // ----- One line -----

  datatype Extracted = NoProtocol | NoCode(protocol: string) | BadCode(protocol: string) | Found(protocol: string, code: int)

  /** A status line is "HTTP/", the protocol version, spaces, and the code up to a space. */
  function Extract(line: string, stoi: ToInt): Extracted
    requires StartsWith(line, "HTTP/")
  {
    var s := line[5..];
    var protocol := s[..FirstOf(s, " ")];
    var code := SkipSpaces(s[|protocol|..]);
    if |protocol| == |s| then NoProtocol
    else if code == "" then NoCode(protocol)
    else
      var number := stoi(code[..FirstOf(code, " ")]);
      if number.None? then BadCode(protocol) else Found(protocol, number.value)
  }

  predicate IsPermanent(code: int) {
    code == 301 || code == 308
  }

  function LocationOf(line: string): Option<string> {
    if StartsWith(line, "Location:") || StartsWith(line, "location:") then Some(SkipSpaces(line[9..])) else None
  }

  predicate IsCacheControl(line: string) {
    StartsWith(line, "Cache-Control:") || StartsWith(line, "cache-control:") || StartsWith(line, "Cache-control:")
  }

  /** The text of the max-age directive, up to the next comma, space or line end. */
  function MaxAgeText(line: string): Option<string> {
    if !IsCacheControl(line) then None
    else
      var value := SkipSpaces(line[14..]);
      var lower, upper := After(value, "max-age="), After(value, "Max-age=");
      var tail := if lower.Some? then lower else upper;
      if tail.None? then None else Some(tail.value[..FirstOf(tail.value, ", \r\n")])
  }

  function Seconds(text: string, stoul: ToNat): nat {
    if stoul(text).Some? then stoul(text).value else 0
  }

  datatype HeaderState = Start | InHeaders | InBody | Trailing

  datatype Info = Info(state: HeaderState, protocol: string, statusCode: int, redirectUrl: string, maxAge: nat)

  datatype Outcome = Next(info: Info) | Thrown(info: Info)

  function StatusLine(h: Info, line: string, otherwise: HeaderState, stoi: ToInt): Outcome {
    if !StartsWith(line, "HTTP/") then Next(h.(state := otherwise))
    else
      match Extract(line, stoi)
      case NoProtocol => Next(h.(state := otherwise))
      case NoCode(protocol) => Next(h.(state := otherwise, protocol := protocol))
      case BadCode(protocol) => Thrown(h.(protocol := protocol))
      case Found(protocol, code) => Next(h.(state := InHeaders, protocol := protocol, statusCode := code))
  }

  function HeaderLine(h: Info, line: string, stoul: ToNat): Info {
    if line == "" then h.(state := InBody)
    else if IsPermanent(h.statusCode) && LocationOf(line).Some? then h.(redirectUrl := LocationOf(line).value)
    else if MaxAgeText(line).Some? then h.(maxAge := Seconds(MaxAgeText(line).value, stoul))
    else h
  }

  function Process(h: Info, raw: string, stoi: ToInt, stoul: ToNat): Outcome {
    var line := WithoutCrLf(raw);
    match h.state
    case Start => StatusLine(h, line, Start, stoi)
    case InHeaders => Next(HeaderLine(h, line, stoul))
    case InBody => StatusLine(h, line, Trailing, stoi)
    case Trailing => StatusLine(h, line, Trailing, stoi)
  }

  function ProcessAll(h: Info, lines: seq<string>, stoi: ToInt, stoul: ToNat): Outcome
    decreases |lines|
  {
    if lines == [] then Next(h)
    else
      var r := Process(h, lines[0], stoi, stoul);
      if r.Thrown? then r else ProcessAll(r.info, lines[1..], stoi, stoul)
  }

  // ----- A chain of responses -----

  /** `gap` separates version and code; `reason` is what follows the code, with the space in front. */
  datatype Response = Response(version: string, gap: string, code: string, status: int, reason: string,
                               headers: seq<string>, trailers: seq<string>)

  /** No header is empty, and no trailer looks like a status line. */
  ghost predicate WellFormed(r: Response, stoi: ToInt) {
    && ' ' !in r.version && r.gap != "" && OnlySpaces(r.gap)
    && r.code != "" && ' ' !in r.code && stoi(r.code) == Some(r.status) && (r.reason == "" || r.reason[0] == ' ')
    && (forall i :: 0 <= i < |r.headers| ==> r.headers[i] != "")
    && (forall i :: 0 <= i < |r.trailers| ==> !StartsWith(r.trailers[i], "HTTP/"))
  }

  function Crlf(line: string): string {
    line + "\r\n"
  }

  function CrlfAll(lines: seq<string>): seq<string> {
    if lines == [] then [] else [Crlf(lines[0])] + CrlfAll(lines[1..])
  }

  function StatusText(r: Response): string {
    "HTTP/" + (r.version + (r.gap + (r.code + r.reason)))
  }

  function LinesOf(r: Response): seq<string> {
    [Crlf(StatusText(r))] + (CrlfAll(r.headers) + ([Crlf("")] + CrlfAll(r.trailers)))
  }

  function LinesOfAll(responses: seq<Response>): seq<string> {
    if responses == [] then [] else LinesOf(responses[0]) + LinesOfAll(responses[1..])
  }

  // ----- What the chain says -----

  /** The last value that `f` finds. */
  function FindLast<A, B>(f: A -> Option<B>, s: seq<A>): Option<B> {
    if s == [] then None
    else if f(s[|s| - 1]).Some? then f(s[|s| - 1])
    else FindLast(f, s[..|s| - 1])
  }

  function OrElse<B>(o: Option<B>, otherwise: B): B {
    if o.Some? then o.value else otherwise
  }

  /** The permanent redirect that a response asks for: sections 15.4.2 and 15.4.9 of RFC 9110. */
  function RedirectOf(r: Response): Option<string> {
    if IsPermanent(r.status) then FindLast(LocationOf, r.headers) else None
  }

  function DirectiveOf(r: Response): Option<string> {
    FindLast(MaxAgeText, r.headers)
  }

  function MaxAgeAfter(directive: Option<string>, before: nat, stoul: ToNat): nat {
    if directive.Some? then Seconds(directive.value, stoul) else before
  }

  lemma {:induction false} FindLastFromTheFront<A, B>(f: A -> Option<B>, s: seq<A>)
    requires s != []
    ensures FindLast(f, s) == if FindLast(f, s[1..]).Some? then FindLast(f, s[1..]) else f(s[0])
  {
    if |s| == 1 {
      assert s[..0] == [];
    } else if f(s[|s| - 1]).None? {
      FindLastFromTheFront(f, s[..|s| - 1]);
      assert s[..|s| - 1][1..] == s[1..][..|s| - 2];
    }
  }

  /** Only a complete line end is taken off. */
  lemma OtherLinesAreKept(line: string)
    ensures (|line| < 2 || line[|line| - 2] != '\r' || line[|line| - 1] != '\n') ==> WithoutCrLf(line) == line
  {
  }

  lemma StrippedCrlf(line: string)
    ensures WithoutCrLf(Crlf(line)) == line
  {
  }

  lemma {:induction false} FirstOfAppend(a: string, b: string, chars: string)
    requires forall i :: 0 <= i < |a| ==> a[i] !in chars
    requires b != "" && b[0] in chars
    ensures FirstOf(a + b, chars) == |a|
  {
    if a == "" {
      assert a + b == b;
    } else {
      assert (a + b)[1..] == a[1..] + b;
      FirstOfAppend(a[1..], b, chars);
    }
  }

  lemma {:induction false} SpacesAreSkipped(spaces: string, rest: string)
    requires OnlySpaces(spaces) && (rest == "" || rest[0] != ' ')
    ensures SkipSpaces(spaces + rest) == rest
  {
    if spaces == "" {
      assert spaces + rest == rest;
    } else {
      assert (spaces + rest)[1..] == spaces[1..] + rest;
      SpacesAreSkipped(spaces[1..], rest);
    }
  }

  /** The status line of a response is read back as its version and its code. */
  lemma StatusTextIsRead(r: Response, stoi: ToInt)
    requires WellFormed(r, stoi)
    ensures StartsWith(StatusText(r), "HTTP/")
    ensures Extract(StatusText(r), stoi) == Found(r.version, r.status)
  {
    assert StatusText(r)[..5] == "HTTP/" && StatusText(r)[5..] == r.version + (r.gap + (r.code + r.reason));
    VersionIsRead(r.version, r.gap, r.code + r.reason);
    UpToTheEnd(r.code, r.reason, " ");
  }

  lemma VersionIsRead(version: string, gap: string, rest: string)
    requires ' ' !in version && gap != "" && OnlySpaces(gap) && (rest == "" || rest[0] != ' ')
    ensures var s := version + (gap + rest);
            FirstOf(s, " ") == |version| < |s| && s[..|version|] == version && SkipSpaces(s[|version|..]) == rest
  {
    FirstOfAppend(version, gap + rest, " ");
    SpacesAreSkipped(gap, rest);
  }

  lemma UpToTheEnd(front: string, rest: string, chars: string)
    requires forall i :: 0 <= i < |front| ==> front[i] !in chars
    requires rest == "" || rest[0] in chars
    ensures (front + rest)[..FirstOf(front + rest, chars)] == front
  {
    if rest == "" {
      assert front + rest == front;
      FirstOfNone(front, chars);
    } else {
      FirstOfAppend(front, rest, chars);
    }
  }

  lemma {:induction false} FirstOfNone(s: string, chars: string)
    requires forall i :: 0 <= i < |s| ==> s[i] !in chars
    ensures FirstOf(s, chars) == |s|
  {
    if s != "" {
      FirstOfNone(s[1..], chars);
    }
  }

  /** A status line without a code, or with a code that is no number, is no status line; the version
      is remembered all the same as soon as a space follows it. */
  lemma NoSpaceInStatusLine(h: Info, version: string, stoi: ToInt, stoul: ToNat)
    requires ' ' !in version && !h.state.InHeaders?
    ensures Process(h, Crlf("HTTP/" + version), stoi, stoul) == Next(h.(state := if h.state.Start? then Start else Trailing))
  {
    FirstOfNone(version, " ");
    assert ("HTTP/" + version)[5..] == version;
    StrippedCrlf("HTTP/" + version);
  }

  lemma NoCodeInStatusLine(h: Info, version: string, gap: string, stoi: ToInt, stoul: ToNat)
    requires ' ' !in version && gap != "" && OnlySpaces(gap) && !h.state.InHeaders?
    ensures Process(h, Crlf("HTTP/" + (version + gap)), stoi, stoul)
         == Next(h.(state := if h.state.Start? then Start else Trailing, protocol := version))
  {
    assert ("HTTP/" + (version + gap))[5..] == version + gap == version + (gap + "");
    VersionIsRead(version, gap, "");
    StrippedCrlf("HTTP/" + (version + gap));
  }

  lemma NoNumberIsFound(version: string, gap: string, code: string, rest: string, stoi: ToInt)
    requires ' ' !in version && gap != "" && OnlySpaces(gap)
    requires code != "" && ' ' !in code && (rest == "" || rest[0] == ' ') && stoi(code).None?
    ensures var line := "HTTP/" + (version + (gap + (code + rest)));
            StartsWith(line, "HTTP/") && Extract(line, stoi) == BadCode(version)
  {
    hide SkipSpaces, FirstOf, OnlySpaces;
    var line := "HTTP/" + (version + (gap + (code + rest)));
    assert line[..5] == "HTTP/" && line[5..] == version + (gap + (code + rest));
    VersionIsRead(version, gap, code + rest);
    UpToTheEnd(code, rest, " ");
  }

  lemma NoNumberInStatusLine(h: Info, version: string, gap: string, code: string, rest: string, stoi: ToInt, stoul: ToNat)
    requires ' ' !in version && gap != "" && OnlySpaces(gap) && !h.state.InHeaders?
    requires code != "" && ' ' !in code && (rest == "" || rest[0] == ' ') && stoi(code).None?
    ensures Process(h, Crlf("HTTP/" + (version + (gap + (code + rest)))), stoi, stoul) == Thrown(h.(protocol := version))
  {
    hide Extract, WithoutCrLf, Crlf, StartsWith, OnlySpaces;
    NoNumberIsFound(version, gap, code, rest, stoi);
    StrippedCrlf("HTTP/" + (version + (gap + (code + rest))));
  }

  lemma {:induction false} ProcessAllAppend(h: Info, a: seq<string>, b: seq<string>, stoi: ToInt, stoul: ToNat)
    requires ProcessAll(h, a, stoi, stoul).Next?
    ensures ProcessAll(h, a + b, stoi, stoul) == ProcessAll(ProcessAll(h, a, stoi, stoul).info, b, stoi, stoul)
    decreases |a|
  {
    hide Process;
    if a == [] {
      assert a + b == b;
    } else {
      assert (a + b)[1..] == a[1..] + b;
      ProcessAllAppend(Process(h, a[0], stoi, stoul).info, a[1..], b, stoi, stoul);
    }
  }

  /** The two kinds of header that are looked at exclude each other. */
  lemma LocationIsNoDirective(line: string)
    ensures LocationOf(line).Some? ==> MaxAgeText(line).None?
  {
    if LocationOf(line).Some? {
      assert line[..9][0] == line[0];
    }
  }

  /** The header section of a response. */
  lemma {:induction false} HeadersAreRead(h: Info, headers: seq<string>, stoi: ToInt, stoul: ToNat)
    requires h.state.InHeaders? && forall i :: 0 <= i < |headers| ==> headers[i] != ""
    ensures ProcessAll(h, CrlfAll(headers), stoi, stoul)
         == Next(h.(redirectUrl := if IsPermanent(h.statusCode)
                                    then OrElse(FindLast(LocationOf, headers), h.redirectUrl) else h.redirectUrl,
                    maxAge := MaxAgeAfter(FindLast(MaxAgeText, headers), h.maxAge, stoul)))
    decreases |headers|
  {
    hide LocationOf, MaxAgeText, Seconds, WithoutCrLf, StatusLine, IsPermanent;
    if headers != [] {
      StrippedCrlf(headers[0]);
      LocationIsNoDirective(headers[0]);
      FindLastFromTheFront(LocationOf, headers);
      FindLastFromTheFront(MaxAgeText, headers);
      var next := HeaderLine(h, headers[0], stoul);
      assert CrlfAll(headers)[1..] == CrlfAll(headers[1..]);
      HeadersAreRead(next, headers[1..], stoi, stoul);
    }
  }

  /** Trailers, and lines in front of the first status line, change nothing but the state. */
  lemma {:induction false} TrailersAreIgnored(h: Info, trailers: seq<string>, stoi: ToInt, stoul: ToNat)
    requires !h.state.InHeaders?
    requires forall i :: 0 <= i < |trailers| ==> !StartsWith(trailers[i], "HTTP/")
    ensures ProcessAll(h, CrlfAll(trailers), stoi, stoul)
         == Next(h.(state := if trailers == [] || h.state.Start? then h.state else Trailing))
    decreases |trailers|
  {
    hide WithoutCrLf, StartsWith;
    if trailers != [] {
      StrippedCrlf(trailers[0]);
      assert CrlfAll(trailers)[1..] == CrlfAll(trailers[1..]);
      TrailersAreIgnored(h.(state := if h.state.Start? then Start else Trailing), trailers[1..], stoi, stoul);
    }
  }

  /** What one response leaves behind. */
  function AfterResponse(h: Info, r: Response, stoul: ToNat): Info {
    Info(if r.trailers == [] then InBody else Trailing, r.version, r.status,
         OrElse(RedirectOf(r), h.redirectUrl), MaxAgeAfter(DirectiveOf(r), h.maxAge, stoul))
  }

  lemma StatusLineIsRead(h: Info, r: Response, stoi: ToInt, stoul: ToNat)
    requires WellFormed(r, stoi) && !h.state.InHeaders?
    ensures ProcessAll(h, [Crlf(StatusText(r))], stoi, stoul)
         == Next(h.(state := InHeaders, protocol := r.version, statusCode := r.status))
  {
    StrippedCrlf(StatusText(r));
    StatusTextIsRead(r, stoi);
    hide Extract, StatusText, Crlf, WithoutCrLf;
    assert [Crlf(StatusText(r))][1..] == [];
  }

  lemma ResponseIsRead(h: Info, r: Response, stoi: ToInt, stoul: ToNat)
    requires WellFormed(r, stoi) && !h.state.InHeaders?
    ensures ProcessAll(h, LinesOf(r), stoi, stoul) == Next(AfterResponse(h, r, stoul))
  {
    hide Process, CrlfAll, StatusText, FindLast, Crlf;
    var status, headers, blank, trailers := [Crlf(StatusText(r))], CrlfAll(r.headers), [Crlf("")], CrlfAll(r.trailers);
    StatusLineIsRead(h, r, stoi, stoul);
    var h1 := h.(state := InHeaders, protocol := r.version, statusCode := r.status);
    ProcessAllAppend(h, status, headers + (blank + trailers), stoi, stoul);
    HeadersAreRead(h1, r.headers, stoi, stoul);
    var h2 := ProcessAll(h1, headers, stoi, stoul).info;
    ProcessAllAppend(h1, headers, blank + trailers, stoi, stoul);
    BlankIsRead(h2, stoi, stoul);
    ProcessAllAppend(h2, blank, trailers, stoi, stoul);
    TrailersAreIgnored(h2.(state := InBody), r.trailers, stoi, stoul);
  }

  lemma BlankIsRead(h: Info, stoi: ToInt, stoul: ToNat)
    requires h.state.InHeaders?
    ensures ProcessAll(h, [Crlf("")], stoi, stoul) == Next(h.(state := InBody))
  {
  }

  /** Over any chain of well-formed responses: the status code is the last one's, the redirect URL
      is the last Location of the last 301 or 308 response that has one, and max-age is that of the
      last directive, or what it was before. Trailers have no say in any of it. */
  lemma {:induction false} ChainIsRead(h: Info, responses: seq<Response>, stoi: ToInt, stoul: ToNat)
    requires !h.state.InHeaders? && forall i :: 0 <= i < |responses| ==> WellFormed(responses[i], stoi)
    ensures var r := ProcessAll(h, LinesOfAll(responses), stoi, stoul);
            && r.Next? && !r.info.state.InHeaders?
            && (responses != [] ==> r.info.statusCode == responses[|responses| - 1].status
                                    && r.info.protocol == responses[|responses| - 1].version)
            && r.info.redirectUrl == OrElse(FindLast(RedirectOf, responses), h.redirectUrl)
            && r.info.maxAge == MaxAgeAfter(FindLast(DirectiveOf, responses), h.maxAge, stoul)
    decreases |responses|
  {
    hide Process, LinesOf, WellFormed, RedirectOf, DirectiveOf, Seconds;
    if responses != [] {
      ResponseIsRead(h, responses[0], stoi, stoul);
      ProcessAllAppend(h, LinesOf(responses[0]), LinesOfAll(responses[1..]), stoi, stoul);
      ChainIsRead(AfterResponse(h, responses[0], stoul), responses[1..], stoi, stoul);
      FindLastFromTheFront(RedirectOf, responses);
      FindLastFromTheFront(DirectiveOf, responses);
    }
  }

  // ----- The chain in its own words -----

  predicate NoLocation(line: string) {
    !StartsWith(line, "Location:") && !StartsWith(line, "location:")
  }

  predicate NoCacheControl(line: string) {
    !StartsWith(line, "Cache-Control:") && !StartsWith(line, "cache-control:") && !StartsWith(line, "Cache-control:")
  }

  lemma LocationHeader(name: string, spaces: string, url: string)
    requires name == "Location:" || name == "location:"
    requires OnlySpaces(spaces) && (url == "" || url[0] != ' ')
    ensures LocationOf(name + (spaces + url)) == Some(url)
  {
    var line := name + (spaces + url);
    assert line[..9] == name && line[9..] == spaces + url;
    SpacesAreSkipped(spaces, url);
  }

  lemma {:induction false} FindLastAt<A, B>(f: A -> Option<B>, before: seq<A>, x: A, after: seq<A>)
    requires f(x).Some? && forall i :: 0 <= i < |after| ==> f(after[i]).None?
    ensures FindLast(f, before + [x] + after) == f(x)
  {
    var s := before + [x] + after;
    if after == [] {
      assert s[|s| - 1] == x;
    } else {
      assert s[|s| - 1] == after[|after| - 1];
      assert s[..|s| - 1] == before + [x] + after[..|after| - 1];
      FindLastAt(f, before, x, after[..|after| - 1]);
    }
  }

  lemma {:induction false} FindLastNone<A, B>(f: A -> Option<B>, s: seq<A>)
    requires forall i :: 0 <= i < |s| ==> f(s[i]).None?
    ensures FindLast(f, s) == None
  {
    if s != [] {
      FindLastNone(f, s[..|s| - 1]);
    }
  }

  /** A response that is no permanent redirect, or says nothing about where to. */
  ghost predicate NoRedirect(r: Response) {
    (r.status != 301 && r.status != 308) || forall i :: 0 <= i < |r.headers| ==> NoLocation(r.headers[i])
  }

  lemma NoRedirectIsFound(r: Response)
    requires NoRedirect(r)
    ensures RedirectOf(r) == None
  {
    if IsPermanent(r.status) {
      FindLastNone(LocationOf, r.headers);
    }
  }

  /** The redirect URL after a chain is the last Location header of its last 301 or 308 response that
      has one, without the spaces in front. */
  lemma {:induction false} RedirectIsRemembered(h: Info, before: seq<Response>, r: Response, after: seq<Response>,
      earlier: seq<string>, name: string, spaces: string, url: string, later: seq<string>, stoi: ToInt, stoul: ToNat)
    requires !h.state.InHeaders? && forall i :: 0 <= i < |before + [r] + after| ==> WellFormed((before + [r] + after)[i], stoi)
    requires r.status == 301 || r.status == 308
    requires r.headers == earlier + [name + (spaces + url)] + later
    requires (name == "Location:" || name == "location:") && OnlySpaces(spaces) && (url == "" || url[0] != ' ')
    requires forall i :: 0 <= i < |later| ==> NoLocation(later[i])
    requires forall i :: 0 <= i < |after| ==> NoRedirect(after[i])
    ensures ProcessAll(h, LinesOfAll(before + [r] + after), stoi, stoul).info.redirectUrl == url
  {
    hide WellFormed, ProcessAll, LinesOfAll, FindLast, NoRedirect, SkipSpaces, StartsWith, OnlySpaces;
    LocationHeader(name, spaces, url);
    FindLastAt(LocationOf, earlier, name + (spaces + url), later);
    forall i | 0 <= i < |after| ensures RedirectOf(after[i]).None? { NoRedirectIsFound(after[i]); }
    FindLastAt(RedirectOf, before, r, after);
    ChainIsRead(h, before + [r] + after, stoi, stoul);
  }

  /** Any other chain leaves the redirect URL alone. */
  lemma {:induction false} OtherRedirectsAreIgnored(h: Info, responses: seq<Response>, stoi: ToInt, stoul: ToNat)
    requires !h.state.InHeaders? && forall i :: 0 <= i < |responses| ==> WellFormed(responses[i], stoi)
    requires forall i :: 0 <= i < |responses| ==> NoRedirect(responses[i])
    ensures ProcessAll(h, LinesOfAll(responses), stoi, stoul).info.redirectUrl == h.redirectUrl
  {
    hide WellFormed, ProcessAll, LinesOfAll, FindLast, NoRedirect;
    forall i | 0 <= i < |responses| ensures RedirectOf(responses[i]).None? { NoRedirectIsFound(responses[i]); }
    FindLastNone(RedirectOf, responses);
    ChainIsRead(h, responses, stoi, stoul);
  }

  predicate OccursAt(s: string, pattern: string, j: nat) {
    j + |pattern| <= |s| && s[j..j + |pattern|] == pattern
  }

  lemma OccursInTail(s: string, pattern: string, i: nat)
    requires s != ""
    ensures OccursAt(s[1..], pattern, i) <==> OccursAt(s, pattern, i + 1)
  {
    assert i + 1 + |pattern| <= |s| ==> s[1..][i..i + |pattern|] == s[i + 1..i + 1 + |pattern|];
  }

  lemma {:induction false} AfterFirst(s: string, pattern: string, j: nat)
    requires OccursAt(s, pattern, j) && forall i: nat :: i < j ==> !OccursAt(s, pattern, i)
    ensures After(s, pattern) == Some(s[j + |pattern|..])
  {
    assert OccursAt(s, pattern, 0) <==> StartsWith(s, pattern);
    if j > 0 {
      forall i: nat ensures OccursAt(s[1..], pattern, i) <==> OccursAt(s, pattern, i + 1) { OccursInTail(s, pattern, i); }
      AfterFirst(s[1..], pattern, j - 1);
    }
  }

  lemma {:induction false} AfterNothing(s: string, pattern: string)
    requires forall i: nat :: !OccursAt(s, pattern, i)
    ensures After(s, pattern) == None
  {
    assert OccursAt(s, pattern, 0) <==> StartsWith(s, pattern);
    if s != "" {
      forall i: nat ensures !OccursAt(s[1..], pattern, i) { OccursInTail(s, pattern, i); }
      AfterNothing(s[1..], pattern);
    }
  }

  /** A Cache-Control header with the value `front`, the first "max-age=" or, if there is none, the
      first "Max-age=", the number, and then the end or one of the characters that end it. */
  ghost predicate IsMaxAgeHeader(name: string, spaces: string, front: string, directive: string, number: string, rest: string) {
    var value := front + (directive + (number + rest));
    && (name == "Cache-Control:" || name == "cache-control:" || name == "Cache-control:")
    && OnlySpaces(spaces) && value != "" && value[0] != ' '
    && (forall i :: 0 <= i < |number| ==> number[i] !in ", \r\n")
    && (rest == "" || rest[0] in ", \r\n")
    && (forall i: nat :: i < |front| ==> !OccursAt(value, directive, i))
    && (directive == "max-age=" || (directive == "Max-age=" && forall i: nat :: !OccursAt(value, "max-age=", i)))
  }

  lemma CacheControlValue(name: string, spaces: string, value: string)
    requires name == "Cache-Control:" || name == "cache-control:" || name == "Cache-control:"
    requires OnlySpaces(spaces) && (value == "" || value[0] != ' ')
    ensures IsCacheControl(name + (spaces + value)) && SkipSpaces((name + (spaces + value))[14..]) == value
  {
    var line := name + (spaces + value);
    assert line[..14] == name && line[14..] == spaces + value;
    SpacesAreSkipped(spaces, value);
  }

  lemma MaxAgeHeader(name: string, spaces: string, front: string, directive: string, number: string, rest: string)
    requires IsMaxAgeHeader(name, spaces, front, directive, number, rest)
    ensures MaxAgeText(name + (spaces + (front + (directive + (number + rest))))) == Some(number)
  {
    var value := front + (directive + (number + rest));
    CacheControlValue(name, spaces, value);
    hide IsCacheControl, SkipSpaces, After, FirstOf, OnlySpaces;
    assert value[|front|..|front| + |directive|] == directive && value[|front| + |directive|..] == number + rest;
    AfterFirst(value, directive, |front|);
    if directive == "Max-age=" {
      AfterNothing(value, "max-age=");
    }
    UpToTheEnd(number, rest, ", \r\n");
  }

  /** A line that is no Cache-Control header, or one whose value has no max-age directive. */
  ghost predicate NoMaxAge(line: string) {
    NoCacheControl(line)
    || exists name, spaces, value ::
         && line == name + (spaces + value)
         && (name == "Cache-Control:" || name == "cache-control:" || name == "Cache-control:")
         && OnlySpaces(spaces) && (value == "" || value[0] != ' ')
         && forall i: nat :: !OccursAt(value, "max-age=", i) && !OccursAt(value, "Max-age=", i)
  }

  lemma NoMaxAgeIsFound(line: string)
    requires NoMaxAge(line)
    ensures MaxAgeText(line) == None
  {
    hide SkipSpaces, After, FirstOf, OnlySpaces, OccursAt;
    if !NoCacheControl(line) {
      var name, spaces, value :|
        && line == name + (spaces + value)
        && (name == "Cache-Control:" || name == "cache-control:" || name == "Cache-control:")
        && OnlySpaces(spaces) && (value == "" || value[0] != ' ')
        && forall i: nat :: !OccursAt(value, "max-age=", i) && !OccursAt(value, "Max-age=", i);
      CacheControlValue(name, spaces, value);
      AfterNothing(value, "max-age=");
      AfterNothing(value, "Max-age=");
    }
  }

  ghost predicate NoDirective(r: Response) {
    forall i :: 0 <= i < |r.headers| ==> NoMaxAge(r.headers[i])
  }

  lemma NoDirectiveIsFound(r: Response)
    requires NoDirective(r)
    ensures DirectiveOf(r) == None
  {
    hide NoMaxAge, MaxAgeText;
    forall i | 0 <= i < |r.headers| ensures MaxAgeText(r.headers[i]).None? { NoMaxAgeIsFound(r.headers[i]); }
    FindLastNone(MaxAgeText, r.headers);
  }

  /** Max-age after a chain is the number in its last Cache-Control header with a max-age directive;
      a text that is no number counts as zero. */
  lemma {:induction false} MaxAgeIsRemembered(h: Info, before: seq<Response>, r: Response, after: seq<Response>,
      earlier: seq<string>, line: string, later: seq<string>,
      name: string, spaces: string, front: string, directive: string, number: string, rest: string, stoi: ToInt, stoul: ToNat)
    requires !h.state.InHeaders? && forall i :: 0 <= i < |before + [r] + after| ==> WellFormed((before + [r] + after)[i], stoi)
    requires r.headers == earlier + [line] + later && line == name + (spaces + (front + (directive + (number + rest))))
    requires IsMaxAgeHeader(name, spaces, front, directive, number, rest)
    requires forall i :: 0 <= i < |later| ==> NoMaxAge(later[i])
    requires forall i :: 0 <= i < |after| ==> NoDirective(after[i])
    ensures ProcessAll(h, LinesOfAll(before + [r] + after), stoi, stoul).info.maxAge
         == if stoul(number).Some? then stoul(number).value else 0
  {
    hide WellFormed, ProcessAll, LinesOfAll, FindLast, NoDirective, NoMaxAge, IsMaxAgeHeader, MaxAgeText;
    MaxAgeHeader(name, spaces, front, directive, number, rest);
    forall i | 0 <= i < |later| ensures MaxAgeText(later[i]).None? { NoMaxAgeIsFound(later[i]); }
    FindLastAt(MaxAgeText, earlier, line, later);
    forall i | 0 <= i < |after| ensures DirectiveOf(after[i]).None? { NoDirectiveIsFound(after[i]); }
    FindLastAt(DirectiveOf, before, r, after);
    ChainIsRead(h, before + [r] + after, stoi, stoul);
  }

  // ----- Downloads -----

  /** What `get` resets before a download: everything but max-age. */
  function Reset(h: Info): Info {
    Info(Start, "", 0, "", h.maxAge)
  }

  /** A download without a max-age directive leaves the max-age of an earlier download in place. */
  lemma StaleMaxAgeSurvives(h: Info, responses: seq<Response>, stoi: ToInt, stoul: ToNat)
    requires forall i :: 0 <= i < |responses| ==> WellFormed(responses[i], stoi)
    requires forall i :: 0 <= i < |responses| ==> NoDirective(responses[i])
    ensures ProcessAll(Reset(h), LinesOfAll(responses), stoi, stoul).info.maxAge == h.maxAge
  {
    hide WellFormed, ProcessAll, LinesOfAll, FindLast, NoDirective;
    forall i | 0 <= i < |responses| ensures DirectiveOf(responses[i]).None? { NoDirectiveIsFound(responses[i]); }
    FindLastNone(DirectiveOf, responses);
    ChainIsRead(Reset(h), responses, stoi, stoul);
  }

  class Curl {
    var hdrState: HeaderState
    var protocol: string
    var statusCode: int
    var permanentRedirectUrl: string
    var cacheControlMaxAge: nat

    function State(): Info
      reads this
    {
      Info(hdrState, protocol, statusCode, permanentRedirectUrl, cacheControlMaxAge)
    }

    constructor ()
      ensures State() == Info(Start, "", 0, "", 0)
    {
      hdrState, protocol, statusCode, permanentRedirectUrl, cacheControlMaxAge := Start, "", 0, "", 0;
    }

    method ExtractProtocolAndStatusCode(line: string, stoi: ToInt) returns (found: bool, thrown: bool)
      requires StartsWith(line, "HTTP/")
      modifies this`protocol, this`statusCode
      ensures found == Extract(line, stoi).Found? && thrown == Extract(line, stoi).BadCode?
      ensures protocol == if Extract(line, stoi).NoProtocol? then old(protocol) else Extract(line, stoi).protocol
      ensures statusCode == if found then Extract(line, stoi).code else old(statusCode)
    {
      var rest := line[5..];
      var end := FirstOf(rest, " ");
      if end == |rest| { return false, false; }
      protocol := rest[..end];
      rest := SkipSpaces(rest[end..]);
      if rest == "" { return false, false; }
      var number := stoi(rest[..FirstOf(rest, " ")]);
      if number.None? { return false, true; }
      statusCode := number.value;
      return true, false;
    }

    method ProcessHeaderLine(raw: string, stoi: ToInt, stoul: ToNat) returns (thrown: bool)
      modifies this
      ensures thrown == Process(old(State()), raw, stoi, stoul).Thrown?
      ensures State() == Process(old(State()), raw, stoi, stoul).info
    {
      hide Extract, WithoutCrLf, SkipSpaces, After, StartsWith;
      var line := WithoutCrLf(raw);
      if hdrState.InHeaders? {
        ProcessField(line, stoul);
        return false;
      }
      var found := false;
      thrown := false;
      if StartsWith(line, "HTTP/") {
        found, thrown := ExtractProtocolAndStatusCode(line, stoi);
      }
      if thrown { return; }
      if found {
        hdrState := InHeaders;
      } else if !hdrState.Start? {
        hdrState := Trailing;
      }
    }

    /** The branch for a line of the header section. */
    method ProcessField(line: string, stoul: ToNat)
      requires hdrState.InHeaders?
      modifies this`hdrState, this`permanentRedirectUrl, this`cacheControlMaxAge
      ensures State() == HeaderLine(old(State()), line, stoul)
    {
      hide SkipSpaces, After;
      if line == "" {
        hdrState := InBody;
      } else if (statusCode == 301 || statusCode == 308) && (StartsWith(line, "Location:") || StartsWith(line, "location:")) {
        permanentRedirectUrl := SkipSpaces(line[9..]);
      } else if IsCacheControl(line) {
        var value := SkipSpaces(line[14..]);
        var tail := After(value, "max-age=");
        if tail.None? {
          tail := After(value, "Max-age=");
        }
        if tail.Some? {
          cacheControlMaxAge := Seconds(tail.value[..FirstOf(tail.value, ", \r\n")], stoul);
        }
      }
    }

    /** One download: the resets, then the header callback for every line that arrives. */
    method Get(lines: seq<string>, stoi: ToInt, stoul: ToNat) returns (thrown: bool)
      modifies this
      ensures thrown == ProcessAll(Reset(old(State())), lines, stoi, stoul).Thrown?
      ensures State() == ProcessAll(Reset(old(State())), lines, stoi, stoul).info
      ensures lines == [] ==>
                statusCode == 0 && protocol == "" && permanentRedirectUrl == "" && cacheControlMaxAge == old(cacheControlMaxAge)
    {
      hide Process;
      hdrState, statusCode, protocol, permanentRedirectUrl := Start, 0, "", "";
      for i := 0 to |lines|
        invariant ProcessAll(State(), lines[i..], stoi, stoul) == ProcessAll(Reset(old(State())), lines, stoi, stoul)
      {
        assert lines[i..][1..] == lines[i + 1..];
        var failed := ProcessHeaderLine(lines[i], stoi, stoul);
        if failed { return true; }
      }
      return false;
    }
  }
}
