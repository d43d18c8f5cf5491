/** The request parser accepts nothing but the requests of its language, and what it gives back is what was sent exactly
    for requests with at most one header. */
module HttpLanguage {
  import opened HttpParser
  import opened HttpGrammar

  // ----- nothing else is accepted

  function Sent(d: Doc): string {
    d.verb + " " + d.uri + " " + d.http
  }

  function Versioned(d: Doc): string {
    Sent(d) + "/" + d.major + "." + d.minor
  }

  function Headed(d: Doc): string {
    RequestLine(d) + LinesText(d.lines)
  }

  predicate ValidTarget(d: Doc) {
    IsVerb(d.verb) && UriChars(d.uri)
  }

  predicate ValidHttp(d: Doc) {
    ValidTarget(d) && IsHttp(d.http)
  }

  // The parser in the given phase of reading `d`, with `temp` in its buffer.
  function Mid(phase: Phase, d: Doc, temp: string): Parser {
    Parser(phase, d.verb, d.uri, Recorded(d.lines), NoBody, temp, ToTemp)
  }

  /** The parser `p` has read `t`, of which `d` and the unfinished header line `line` are the parts. */
  predicate Read(p: Parser, d: Doc, line: string, t: string, lib: Library) {
    match p.phase
    case Error => true
    case Start => t == "" && p == START
    case Method => t == d.verb && p == Parser(Method, d.verb, "", [], NoBody, "", ToMethod)
    case Uri => ValidTarget(d) && t == d.verb + " " + d.uri && p == Parser(Uri, d.verb, d.uri, [], NoBody, "", ToUri)
    case Http => ValidTarget(d) && Letters(d.http) && d.lines == [] && t == Sent(d) && p == Mid(Http, d, d.http)
    case Major =>
      ValidHttp(d) && Digits(d.major) && d.lines == [] && t == Sent(d) + "/" + d.major && p == Mid(Major, d, d.major)
    case Minor => ValidHead(d) && d.lines == [] && t == Versioned(d) && p == Mid(Minor, d, d.minor)
    case ExpectingNewline1 =>
      ValidHead(d) && d.lines == [] && t == Versioned(d) + "\r" && p == Mid(ExpectingNewline1, d, "")
    case HeaderLineStart => ValidHead(d) && t == Headed(d) && p == Mid(HeaderLineStart, d, Joined(d.lines))
    case HeaderLine =>
      ValidHead(d) && IsLine(line) && t == Headed(d) + line && p == Mid(HeaderLine, d, Joined(d.lines) + line)
    case ExpectingNewline2 =>
      && ValidHead(d) && IsLine(line) && t == Headed(d) + line + "\r"
      && p == Mid(ExpectingNewline2, d, Joined(d.lines) + line)
    case ExpectingNewline3 =>
      ValidHead(d) && t == Headed(d) + "\r" && p == Mid(ExpectingNewline3, d, Joined(d.lines))
    case ExpectingBody =>
      && ValidHead(d) && |d.body| < BodySize(d, lib) && t == Headed(d) + "\r\n" + d.body
      && p == Mid(ExpectingBody, d, d.body)
    case Finish => Valid(d, lib) && t == Text(d) && p == Result(d, lib)
  }

  lemma ReadTarget(p: Parser, d: Doc, line: string, t: string, c: char, lib: Library) returns (e: Doc)
    requires Read(p, d, line, t, lib) && (p.phase.Start? || p.phase.Method? || p.phase.Uri?)
    ensures Read(Step(p, c, lib), e, line, t + [c], lib)
  {
    e := Doc("", "", "", "", "", [], "");
    match p.phase
    case Start => e := e.(verb := [c]);
    case Method =>
      if c == ' ' {
        e := e.(verb := d.verb);
      } else {
        e := e.(verb := d.verb + [c]);
      }
    case Uri =>
      if c == ' ' {
        e := e.(verb := d.verb, uri := d.uri);
      } else {
        e := e.(verb := d.verb, uri := d.uri + [c]);
      }
  }

  lemma ReadVersion(p: Parser, d: Doc, line: string, t: string, c: char, lib: Library) returns (e: Doc)
    requires Read(p, d, line, t, lib) && (p.phase.Http? || p.phase.Major? || p.phase.Minor?)
    ensures Read(Step(p, c, lib), e, line, t + [c], lib)
  {
    hide Lower, IsHttp;
    HttpMeans(d.http);
    e := d;
    match p.phase
    case Http => e := if c == '/' then d.(major := "") else d.(http := d.http + [c]);
    case Major => e := if c == '.' then d.(minor := "") else d.(major := d.major + [c]);
    case Minor => e := if c == '\r' then d else d.(minor := d.minor + [c]);
  }

  lemma ReadLine(p: Parser, d: Doc, line: string, t: string, c: char, lib: Library) returns (next: string)
    requires Read(p, d, line, t, lib)
    requires p.phase.ExpectingNewline1? || p.phase.HeaderLineStart? || p.phase.HeaderLine?
    ensures Read(Step(p, c, lib), d, next, t + [c], lib)
  {
    hide Lower, IsHttp, ParseHeader;
    next := line;
    match p.phase
    case ExpectingNewline1 =>
      assert c == '\n' ==> t + [c] == RequestLine(d) + LinesText([]);
    case HeaderLineStart => next := [c];
    case HeaderLine => next := if c == '\r' then line else line + [c];
  }

  lemma HeadedAppend(d: Doc, line: string)
    ensures Headed(d.(lines := d.lines + [line])) == Headed(d) + line + "\r\n"
  {
    LinesTextAppend(d.lines, line);
    hide LinesText;
  }

  lemma EndsLine(d: Doc, line: string, lib: Library)
    requires AreLines(d.lines) && IsLine(line)
    ensures var e := d.(lines := d.lines + [line]);
      Step(Mid(ExpectingNewline2, d, Joined(d.lines) + line), '\n', lib) == Mid(HeaderLineStart, e, Joined(e.lines))
  {
    JoinedAppend(d.lines, line);
    NameNeverEmpty(d.lines + [line]);
    hide Joined, Recorded, ParseHeader;
  }

  lemma ReadLineEnd(p: Parser, d: Doc, line: string, t: string, c: char, lib: Library) returns (e: Doc)
    requires Read(p, d, line, t, lib) && p.phase.ExpectingNewline2?
    ensures Read(Step(p, c, lib), e, line, t + [c], lib)
  {
    hide Joined, Recorded, ParseHeader, Headed;
    e := d.(lines := d.lines + [line]);
    if c == '\n' {
      EndsLine(d, line, lib);
      HeadedAppend(d, line);
      assert t + [c] == Headed(d) + line + "\r\n";
      hide Step;
    }
  }

  lemma ReadEnd(p: Parser, d: Doc, line: string, t: string, c: char, lib: Library) returns (e: Doc)
    requires Read(p, d, line, t, lib) && (p.phase.ExpectingNewline3? || p.phase.ExpectingBody?)
    ensures Read(Step(p, c, lib), e, line, t + [c], lib)
  {
    match p.phase
    case ExpectingNewline3 =>
      e := d.(body := "");
      assert c == '\n' ==> t + [c] == Headed(e) + "\r\n" + "";
    case ExpectingBody =>
      e := d.(body := d.body + [c]);
      assert t + [c] == Headed(e) + "\r\n" + e.body;
  }

  lemma ReadStep(p: Parser, d: Doc, line: string, t: string, c: char, lib: Library) returns (e: Doc, next: string)
    requires Read(p, d, line, t, lib) && !Stopped(p)
    ensures Read(Step(p, c, lib), e, next, t + [c], lib)
  {
    e, next := d, line;
    if p.phase.Start? || p.phase.Method? || p.phase.Uri? {
      e := ReadTarget(p, d, line, t, c, lib);
    } else if p.phase.Http? || p.phase.Major? || p.phase.Minor? {
      e := ReadVersion(p, d, line, t, c, lib);
    } else if p.phase.ExpectingNewline2? {
      e := ReadLineEnd(p, d, line, t, c, lib);
    } else if p.phase.ExpectingNewline3? || p.phase.ExpectingBody? {
      e := ReadEnd(p, d, line, t, c, lib);
    } else {
      next := ReadLine(p, d, line, t, c, lib);
    }
  }

  /** Whatever the parser has read without an error is the beginning of a request, and it stands where it should. */
  lemma {:induction false} FedIsRead(s: string, lib: Library) returns (d: Doc, line: string, t: string)
    ensures t <= s && Read(Feed(START, s, lib), d, line, t, lib)
    ensures !Stopped(Feed(START, s, lib)) ==> t == s
    decreases |s|
  {
    d, line, t := Doc("", "", "", "", "", [], ""), "", "";
    if s != "" {
      var init, c := s[..|s| - 1], s[|s| - 1];
      assert s == init + [c];
      d, line, t := FedIsRead(init, lib);
      FeedConcat(START, init, [c], lib);
      FeedOne(Feed(START, init, lib), c, lib);
      if !Stopped(Feed(START, init, lib)) {
        d, line := ReadStep(Feed(START, init, lib), d, line, t, c, lib);
        t := t + [c];
      }
    }
  }

  lemma FinishedIsText(s: string, lib: Library) returns (d: Doc)
    requires Feed(START, s, lib).phase.Finish?
    ensures Valid(d, lib) && Text(d) <= s
  {
    var line, t;
    d, line, t := FedIsRead(s, lib);
    hide Feed;
  }

  /** The driver reaches Finish exactly on the inputs that begin with a request of the language. */
  lemma AcceptsExactly(s: string, lib: Library)
    ensures Feed(START, s, lib).phase.Finish? <==> exists d :: Valid(d, lib) && Text(d) <= s
  {
    hide Feed, Valid, Text;
    if Feed(START, s, lib).phase.Finish? {
      var d := FinishedIsText(s, lib);
    }
    if d :| Valid(d, lib) && Text(d) <= s {
      assert s == Text(d) + s[|Text(d)|..];
      AcceptsText(d, s[|Text(d)|..], lib);
    }
  }

  lemma FeedHeaded(d: Doc, rest: string, lib: Library)
    requires ValidHead(d)
    ensures Feed(START, Headed(d) + rest, lib) == Feed(AfterLines(d, d.lines), rest, lib)
  {
    assert Headed(d) + rest == RequestLine(d) + (LinesText(d.lines) + rest);
    FeedRequestLine(d, LinesText(d.lines) + rest, lib);
    FeedConcat(AfterLines(d, []), LinesText(d.lines), rest, lib);
    FeedLines(d, d.lines, lib);
  }

  lemma DropLast(a: string, b: string)
    requires b != ""
    ensures (a + b)[..|a + b| - 1] == a + b[..|b| - 1]
  {
  }

  lemma EndOneShort(d: Doc, lib: Library)
    requires |d.body| == BodySize(d, lib)
    ensures !Stopped(Feed(AfterLines(d, d.lines), ("\r\n" + d.body)[..|"\r\n" + d.body| - 1], lib))
  {
    hide Feed, Joined, Recorded;
    if d.body == "" {
      assert ("\r\n" + d.body)[..1] == "\r";
      FeedOne(AfterLines(d, d.lines), '\r', lib);
    } else {
      DropLast("\r\n", d.body);
      FeedBlank(d, d.body[..|d.body| - 1], lib);
      FeedBody(Restart(AfterLines(d, d.lines)).(phase := ExpectingBody), "", d.body, lib);
    }
  }

  lemma TextOneShort(d: Doc)
    ensures |Text(d)| > 0
    ensures Text(d)[..|Text(d)| - 1] == Headed(d) + ("\r\n" + d.body)[..|"\r\n" + d.body| - 1]
  {
    hide RequestLine, LinesText;
    var most := "\r\n" + d.body;
    assert Text(d) == Headed(d) + most;
    DropLast(Headed(d), most);
  }

  lemma OneShort(d: Doc, lib: Library)
    requires Valid(d, lib)
    ensures |Text(d)| > 0 && !Stopped(Feed(START, Text(d)[..|Text(d)| - 1], lib))
  {
    hide Feed, Text, Headed, AfterLines;
    TextOneShort(d);
    FeedHeaded(d, ("\r\n" + d.body)[..|"\r\n" + d.body| - 1], lib);
    EndOneShort(d, lib);
  }

  /** A request is recognised at its last character and not before. */
  lemma NotBefore(d: Doc, n: nat, lib: Library)
    requires Valid(d, lib) && n < |Text(d)|
    ensures !Stopped(Feed(START, Text(d)[..n], lib))
  {
    var t := Text(d)[..|Text(d)| - 1];
    OneShort(d, lib);
    assert t == t[..n] + t[n..] && t[..n] == Text(d)[..n];
    FeedConcat(START, t[..n], t[n..], lib);
    if Stopped(Feed(START, t[..n], lib)) {
      FeedStopped(Feed(START, t[..n], lib), t[n..], lib);
    }
  }

  // ----- reading back what was printed

  datatype Request = Request(verb: string, uri: string, headers: seq<Header>, body: string)

  function PrintHeader(h: Header): string {
    h.name + ": " + h.value
  }

  function PrintHeaders(hs: seq<Header>): seq<string> {
    seq(|hs|, i requires 0 <= i < |hs| => PrintHeader(hs[i]))
  }

  function Parts(r: Request): Doc {
    Doc(r.verb, r.uri, "HTTP", "1", "1", PrintHeaders(r.headers), r.body)
  }

  /** The request as it goes over the wire, after section 3 of RFC 9112. */
  function Print(r: Request): string {
    Text(Parts(r))
  }

  // A header as a sender writes it: a name that starts with a letter, no colon in it, no line breaks, no outer spaces.
  predicate GoodHeader(h: Header) {
    && IsLine(h.name) && ':' !in h.name && Trim(h.name) == h.name
    && NoBreaks(h.value) && Trim(h.value) == h.value
  }

  predicate GoodHeaders(hs: seq<Header>) {
    forall i :: 0 <= i < |hs| ==> GoodHeader(hs[i])
  }

  predicate GoodHead(r: Request) {
    IsVerb(r.verb) && UriChars(r.uri) && GoodHeaders(r.headers)
  }

  predicate WellFormed(r: Request, lib: Library) {
    && GoodHead(r)
    && |r.body| == if r.verb == "POST" && lib.length(r.headers) > 0 then lib.length(r.headers) else 0
  }

  lemma {:induction false} ColonAfter(name: string, rest: string)
    requires ':' !in name
    ensures Colon(name + [':'] + rest) == |name|
    decreases |name|
  {
    if name != "" {
      assert (name + [':'] + rest)[1..] == name[1..] + [':'] + rest;
      ColonAfter(name[1..], rest);
    }
  }

  lemma {:induction false} TrimLeftMeans(s: string) returns (cut: string)
    ensures s == cut + TrimLeft(s) && Blanks(cut) && (TrimLeft(s) != "" ==> !Blank(TrimLeft(s)[0]))
    decreases |s|
  {
    cut := "";
    if s != "" && IsSpace(s[0]) {
      cut := TrimLeftMeans(s[1..]);
      cut := [s[0]] + cut;
    }
  }

  lemma {:induction false} TrimRightMeans(s: string) returns (cut: string)
    ensures s == TrimRight(s) + cut && Blanks(cut)
    ensures TrimRight(s) != "" ==> !Blank(TrimRight(s)[|TrimRight(s)| - 1])
    decreases |s|
  {
    cut := "";
    if s != "" && IsSpace(s[|s| - 1]) {
      cut := TrimRightMeans(s[..|s| - 1]);
      cut := cut + [s[|s| - 1]];
    }
  }

  /** Trimming takes off blanks at both ends, and all of them. */
  lemma TrimMeans(s: string) returns (before: string, after: string)
    ensures s == before + Trim(s) + after && Blanks(before) && Blanks(after)
    ensures Trim(s) != "" ==> !Blank(Trim(s)[0]) && !Blank(Trim(s)[|Trim(s)| - 1])
  {
    before := TrimLeftMeans(s);
    after := TrimRightMeans(TrimLeft(s));
  }

  /** A line is split at its first colon, and both parts are trimmed; a line without one is a name with an empty
      value. */
  lemma HeaderMeans(name: string, rest: string)
    requires ':' !in name
    ensures ParseHeader(name) == Header(Trim(name), "")
    ensures ParseHeader(name + [':'] + rest) == Header(Trim(name), Trim(rest))
  {
    hide Trim;
    ColonAfter(name, rest);
    var text := name + [':'] + rest;
    assert text[..|name|] == name && text[|name| + 1..] == rest;
    assert Colon(name) == |name| && name[..|name|] == name;
  }

  /** A first header line without a colon is recorded as a name with an empty value. */
  lemma BareLine(d: Doc, line: string, lib: Library)
    requires IsLine(line) && ':' !in line
    ensures Feed(AfterLines(d, []), line + "\r\n", lib).headers == [Header(Trim(line), "")]
  {
    hide Feed, Joined, Recorded, ParseHeader;
    FeedLine(d, [], line, lib);
    assert [] + [line] == [line];
    JoinedOne(line);
    HeaderMeans(line, "");
  }

  // What is recorded for a printed header, and for one that is run together with the text `more`.
  lemma ParsePrinted(h: Header, more: string)
    requires GoodHeader(h)
    ensures ParseHeader(PrintHeader(h) + more) == Header(h.name, Trim(h.value + more))
  {
    var rest := " " + h.value + more;
    assert PrintHeader(h) + more == h.name + [':'] + rest;
    ColonAfter(h.name, rest);
    var text := h.name + [':'] + rest;
    assert text[..|h.name|] == h.name && text[|h.name| + 1..] == rest;
    assert rest[1..] == h.value + more;
  }

  lemma PrintedIsLine(h: Header)
    requires GoodHeader(h)
    ensures IsLine(PrintHeader(h))
  {
    var s := PrintHeader(h);
    assert s[0] == h.name[0];
    forall i | 0 <= i < |s| ensures s[i] != '\r' && s[i] != '\n' {
      assert i < |h.name| ==> s[i] == h.name[i];
      assert i >= |h.name| + 2 ==> s[i] == h.value[i - |h.name| - 2];
    }
  }

  lemma {:induction false} TrimLeftStops(a: string, b: string)
    requires b != "" && !IsSpace(b[0])
    ensures |TrimLeft(a + b)| >= |b| && TrimLeft(a + b)[|TrimLeft(a + b)| - |b|..] == b
    decreases |a|
  {
    if a == "" {
      assert a + b == b;
    } else {
      assert (a + b)[1..] == a[1..] + b;
      TrimLeftStops(a[1..], b);
    }
  }

  lemma {:induction false} TrimRightStops(a: string, b: string)
    requires a != "" && !IsSpace(a[|a| - 1])
    ensures |TrimRight(a + b)| >= |a|
    decreases |b|
  {
    if b == "" {
      assert a + b == a;
    } else {
      assert (a + b)[..|a + b| - 1] == a + b[..|b| - 1];
      TrimRightStops(a, b[..|b| - 1]);
    }
  }

  lemma {:induction false} TrimRightEnds(s: string)
    ensures TrimRight(s) != "" ==> !IsSpace(TrimRight(s)[|TrimRight(s)| - 1])
    decreases |s|
  {
    if s != "" && IsSpace(s[|s| - 1]) {
      TrimRightEnds(s[..|s| - 1]);
    }
  }

  // A value that another header line was run into is longer than the value of that line.
  lemma SwallowsNext(value: string, h: Header)
    requires GoodHeader(h)
    ensures Trim(value + PrintHeader(h)) != h.value
  {
    var s := PrintHeader(h);
    assert s[0] == h.name[0];
    TrimLeftStops(value, s);
    var left := TrimLeft(value + s);
    var skipped := left[..|left| - |s|];
    assert left == skipped + s;
    if h.value == "" {
      var kept := skipped + h.name + ":";
      assert left == kept + " ";
      TrimRightStops(kept, " ");
    } else {
      TrimRightEnds(TrimLeft(h.value));
      assert left[|left| - 1] == h.value[|h.value| - 1];
      TrimRightStops(left, "");
      assert left + "" == left;
    }
  }

  lemma {:induction false} RecordedAt(lines: seq<string>, i: nat)
    requires i < |lines|
    ensures |Recorded(lines)| == |lines| && Recorded(lines)[i] == ParseHeader(Joined(lines[..i + 1]))
    decreases |lines|
  {
    var init := lines[..|lines| - 1];
    if i < |init| {
      RecordedAt(init, i);
      assert init[..i + 1] == lines[..i + 1];
    } else {
      if init != [] {
        RecordedAt(init, 0);
      }
      assert lines[..i + 1] == lines;
    }
  }

  /** One header is recorded per line, but each of them under the name of the first. */
  lemma RecordedNames(hs: seq<Header>, i: nat)
    requires GoodHeaders(hs) && i < |hs|
    ensures |Recorded(PrintHeaders(hs))| == |hs| && Recorded(PrintHeaders(hs))[i].name == hs[0].name
  {
    var lines := PrintHeaders(hs);
    RecordedAt(lines, i);
    var more := JoinedRest(lines[..i + 1]);
    ParsePrinted(hs[0], more);
  }

  lemma JoinedOne(line: string)
    ensures Joined([line]) == line && Recorded([line]) == [ParseHeader(line)]
  {
    var none: seq<string> := [];
    assert none + [line] == [line];
    JoinedAppend(none, line);
    assert "" + line == line;
  }

  lemma JoinedTwo(a: string, b: string)
    ensures Joined([a, b]) == a + b
  {
    assert [a] + [b] == [a, b];
    JoinedAppend([a], b);
    JoinedOne(a);
  }

  lemma ParseAlone(h: Header)
    requires GoodHeader(h)
    ensures ParseHeader(PrintHeader(h)) == h
  {
    ParsePrinted(h, "");
    assert PrintHeader(h) + "" == PrintHeader(h) && h.value + "" == h.value;
  }

  lemma RecordedSecond(h0: Header, h1: Header)
    requires GoodHeader(h0) && GoodHeader(h1)
    ensures ParseHeader(PrintHeader(h0) + PrintHeader(h1)).value != h1.value
  {
    ParsePrinted(h0, PrintHeader(h1));
    SwallowsNext(h0.value, h1);
  }

  lemma NotReadBack(hs: seq<Header>)
    requires GoodHeaders(hs) && |hs| > 1
    ensures Recorded(PrintHeaders(hs)) != hs
  {
    hide Recorded, Joined, ParseHeader, PrintHeader;
    var lines := PrintHeaders(hs);
    RecordedAt(lines, 1);
    assert lines[..2] == [lines[0], lines[1]];
    JoinedTwo(lines[0], lines[1]);
    RecordedSecond(hs[0], hs[1]);
  }

  lemma RecordedReadBack(hs: seq<Header>)
    requires GoodHeaders(hs)
    ensures Recorded(PrintHeaders(hs)) == hs <==> |hs| <= 1
  {
    var lines := PrintHeaders(hs);
    if |hs| == 1 {
      ParseAlone(hs[0]);
      JoinedOne(lines[0]);
      assert lines == [lines[0]];
    } else if |hs| > 1 {
      NotReadBack(hs);
    }
  }

  // The lines run together start with the first line.
  lemma {:induction false} JoinedRest(lines: seq<string>) returns (more: string)
    requires lines != []
    ensures Joined(lines) == lines[0] + more
    ensures AreLines(lines) ==> more == "" || IsAlpha(more[0])
    decreases |lines|
  {
    var init := lines[..|lines| - 1];
    if init == [] {
      more := "";
      assert Joined(init) == "";
    } else {
      more := JoinedRest(init);
      more := more + lines[|lines| - 1];
    }
  }

  lemma VersionText()
    ensures IsHttp("HTTP") && Digits("1")
  {
  }

  lemma PartsValid(r: Request)
    requires GoodHead(r)
    ensures ValidHead(Parts(r))
  {
    VersionText();
    forall i | 0 <= i < |r.headers| ensures IsLine(PrintHeaders(r.headers)[i]) {
      PrintedIsLine(r.headers[i]);
    }
    hide IsHttp, Digits, UriChars, IsLine, GoodHeader;
  }

  /** The header lines are behind the parser. */
  predicate PastHeaders(p: Parser) {
    p.phase.ExpectingNewline3? || p.phase.ExpectingBody? || Stopped(p)
  }

  lemma {:induction false} FeedPastHeaders(p: Parser, s: string, lib: Library)
    requires PastHeaders(p)
    ensures Feed(p, s, lib).headers == p.headers
    decreases |s|
  {
    if s != "" {
      FeedPastHeaders(Step(p, s[0], lib), s[1..], lib);
    }
  }

  // What is left of the headers of a printed request, whether or not the parser comes to its end.
  lemma PrintedRecorded(r: Request, rest: string, lib: Library)
    requires GoodHead(r)
    ensures Feed(START, Print(r) + rest, lib).headers == Recorded(PrintHeaders(r.headers))
  {
    hide Feed, Joined, Recorded, ValidHead;
    var d := Parts(r);
    PartsValid(r);
    var more := "\n" + d.body + rest;
    assert Print(r) + rest == Headed(d) + (['\r'] + more);
    FeedHeaded(d, ['\r'] + more, lib);
    FeedNext(AfterLines(d, d.lines), '\r', more, lib);
    FeedPastHeaders(AfterLines(d, d.lines).(phase := ExpectingNewline3), more, lib);
  }

  /** The headers that the parser holds after a printed request are the headers printed exactly when there is at most
      one. */
  lemma HeadersReadBack(r: Request, rest: string, lib: Library)
    requires GoodHead(r)
    ensures Feed(START, Print(r) + rest, lib).headers == r.headers <==> |r.headers| <= 1
  {
    PrintedRecorded(r, rest, lib);
    RecordedReadBack(r.headers);
  }

  /** Parsing gives back the method, the uri, the headers and the body of a well-formed request, whatever follows it,
      exactly when it has at most one header. */
  lemma RoundTrip(r: Request, rest: string, lib: Library)
    requires WellFormed(r, lib)
    ensures var p := Feed(START, Print(r) + rest, lib);
      (&& p.phase.Finish? && p.verb == r.verb && p.uri == r.uri && p.headers == r.headers
       && p.body == if r.body == "" then NoBody else Body(r.body, lib.contentType(r.headers)))
      <==> |r.headers| <= 1
  {
    hide Feed, Text, ValidHead, Recorded;
    HeadersReadBack(r, rest, lib);
    if |r.headers| <= 1 {
      PartsValid(r);
      RecordedReadBack(r.headers);
      AcceptsText(Parts(r), rest, lib);
    }
  }
}
