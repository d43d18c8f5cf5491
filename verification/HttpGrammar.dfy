/** The language the request parser accepts, what it records, and when that is what was sent. The message format is that
    of sections 2, 3 and 5 of RFC 9112, as far as the parser knows it. */
module HttpGrammar {
  import opened HttpParser

  /** The parts of a request. */
  datatype Doc = Doc(verb: string, uri: string, http: string, major: string, minor: string,
                     lines: seq<string>, body: string)

  predicate IsVerb(s: string) {
    s == "GET" || s == "POST"
  }

  // The characters of the language, by their codes in ASCII.

  predicate Letter(c: char) {
    65 <= c as int <= 90 || 97 <= c as int <= 122
  }

  predicate Digit(c: char) {
    48 <= c as int <= 57
  }

  predicate Visible(c: char) {
    33 <= c as int <= 126
  }

  predicate Blank(c: char) {
    c as int == 32 || 9 <= c as int <= 13
  }

  predicate Letters(s: string) {
    forall i :: 0 <= i < |s| ==> Letter(s[i])
  }

  predicate Digits(s: string) {
    forall i :: 0 <= i < |s| ==> Digit(s[i])
  }

  predicate UriChars(s: string) {
    forall i :: 0 <= i < |s| ==> Visible(s[i])
  }

  predicate Blanks(s: string) {
    forall i :: 0 <= i < |s| ==> Blank(s[i])
  }

  // "http", each letter in either case.
  predicate IsHttp(s: string) {
    && |s| == 4 && (s[0] == 'h' || s[0] == 'H') && (s[1] == 't' || s[1] == 'T')
    && (s[2] == 't' || s[2] == 'T') && (s[3] == 'p' || s[3] == 'P')
  }

  /** The guards of the parser are the characters of the language: a uri is any text of visible characters. */
  lemma GuardsMean(c: char)
    ensures IsAlpha(c) <==> Letter(c)
    ensures IsDigit(c) <==> Digit(c)
    ensures IsUriChar(c) <==> Visible(c)
    ensures IsSpace(c) <==> Blank(c)
    ensures LowerChar(c) as int == c as int + if 65 <= c as int <= 90 then 32 else 0
  {
  }

  lemma {:induction false} LowerAt(s: string, i: nat)
    requires i < |s|
    ensures Lower(s)[i] == LowerChar(s[i])
    decreases |s|
  {
    if i > 0 {
      LowerAt(s[1..], i - 1);
    }
  }

  /** The guard after the protocol name takes exactly "http" in any mix of cases. */
  lemma HttpMeans(s: string)
    ensures Lower(s) == "http" <==> IsHttp(s)
    ensures IsHttp(s) ==> Letters(s)
  {
    hide Lower;
    if |s| == 4 {
      LowerAt(s, 0);
      LowerAt(s, 1);
      LowerAt(s, 2);
      LowerAt(s, 3);
      if IsHttp(s) {
        assert Lower(s) == "http";
      }
    }
  }

  predicate NoBreaks(s: string) {
    forall i :: 0 <= i < |s| ==> s[i] != '\r' && s[i] != '\n'
  }

  // A header line starts with a letter and has no CR and no LF.
  predicate IsLine(s: string) {
    s != "" && Letter(s[0]) && NoBreaks(s)
  }

  predicate AreLines(lines: seq<string>) {
    forall i :: 0 <= i < |lines| ==> IsLine(lines[i])
  }

  function RequestLine(d: Doc): string {
    d.verb + " " + d.uri + " " + d.http + "/" + d.major + "." + d.minor + "\r\n"
  }

  function LinesText(lines: seq<string>): string {
    if lines == [] then "" else LinesText(lines[..|lines| - 1]) + lines[|lines| - 1] + "\r\n"
  }

  function Text(d: Doc): string {
    RequestLine(d) + LinesText(d.lines) + "\r\n" + d.body
  }

  // The header lines run together: the buffer is not cleared between them.
  function Joined(lines: seq<string>): string {
    if lines == [] then "" else Joined(lines[..|lines| - 1]) + lines[|lines| - 1]
  }

  // What the parser records: at the end of each line, the header parsed out of all lines so far.
  function Recorded(lines: seq<string>): seq<Header> {
    if lines == [] then [] else Recorded(lines[..|lines| - 1]) + [ParseHeader(Joined(lines))]
  }

  function BodySize(d: Doc, lib: Library): nat {
    if d.verb == "POST" && lib.length(Recorded(d.lines)) > 0 then lib.length(Recorded(d.lines)) else 0
  }

  predicate ValidHead(d: Doc) {
    && IsVerb(d.verb) && UriChars(d.uri) && IsHttp(d.http) && Digits(d.major)
    && Digits(d.minor) && AreLines(d.lines)
  }

  predicate Valid(d: Doc, lib: Library) {
    ValidHead(d) && |d.body| == BodySize(d, lib)
  }

  // What is left in the parser when it has read the request `d`.
  function Result(d: Doc, lib: Library): Parser {
    Parser(Finish, d.verb, d.uri, Recorded(d.lines),
           if d.body == "" then NoBody else Body(d.body, lib.contentType(Recorded(d.lines))),
           if d.body == "" then Joined(d.lines) else "", ToTemp)
  }

  // ----- header names

  lemma {:induction false} TrimRightKeepsStart(s: string)
    requires s != "" && !IsSpace(s[0])
    ensures TrimRight(s) != "" && TrimRight(s)[0] == s[0]
    decreases |s|
  {
    if IsSpace(s[|s| - 1]) {
      TrimRightKeepsStart(s[..|s| - 1]);
    }
  }

  lemma {:induction false} JoinedStart(lines: seq<string>)
    requires lines != [] && AreLines(lines)
    ensures Joined(lines) != "" && IsAlpha(Joined(lines)[0])
    decreases |lines|
  {
    var init := lines[..|lines| - 1];
    if init != [] {
      assert AreLines(init);
      JoinedStart(init);
    } else {
      assert Joined(init) == "";
      assert Joined(lines) == lines[0];
    }
  }

  /** The recorded name is never empty: the branch that drops a header without a name is never taken. */
  lemma NameNeverEmpty(lines: seq<string>)
    requires lines != [] && AreLines(lines)
    ensures ParseHeader(Joined(lines)).name != ""
  {
    JoinedStart(lines);
    var text := Joined(lines);
    var name := text[..Colon(text)];
    assert name[0] == text[0];
    TrimRightKeepsStart(name);
  }

  // ----- every request of the language is accepted

  /** The characters that the parser appends to its buffer without leaving its phase. */
  predicate Loops(phase: Phase, c: char) {
    match phase
    case Method => IsAlpha(c)
    case Uri => IsUriChar(c)
    case Http => IsAlpha(c)
    case Major => IsDigit(c)
    case Minor => IsDigit(c)
    case HeaderLine => c != '\r' && c != '\n'
    case _ => false
  }

  function AppendAll(p: Parser, s: string): Parser {
    match p.buffer
    case ToMethod => p.(verb := p.verb + s)
    case ToUri => p.(uri := p.uri + s)
    case ToTemp => p.(temp := p.temp + s)
  }

  lemma StepLoops(p: Parser, c: char, lib: Library)
    requires Loops(p.phase, c)
    ensures Step(p, c, lib) == Append(p, c)
  {
  }

  lemma AppendFirst(p: Parser, s: string)
    requires s != ""
    ensures AppendAll(Append(p, s[0]), s[1..]) == AppendAll(p, s)
  {
    assert [s[0]] + s[1..] == s;
  }

  lemma {:induction false} FeedLoops(p: Parser, s: string, lib: Library)
    requires forall i :: 0 <= i < |s| ==> Loops(p.phase, s[i])
    ensures Feed(p, s, lib) == AppendAll(p, s)
    decreases |s|
  {
    if s != "" {
      StepLoops(p, s[0], lib);
      FeedLoops(Append(p, s[0]), s[1..], lib);
      AppendFirst(p, s);
    }
  }

  lemma FeedOne(p: Parser, c: char, lib: Library)
    ensures Feed(p, [c], lib) == Step(p, c, lib)
  {
    assert [c][1..] == "";
  }

  // A piece that loops, and then one character that ends it.
  lemma FeedPiece(p: Parser, s: string, c: char, rest: string, lib: Library)
    requires forall i :: 0 <= i < |s| ==> Loops(p.phase, s[i])
    ensures Feed(p, s + [c] + rest, lib) == Feed(Step(AppendAll(p, s), c, lib), rest, lib)
  {
    FeedConcat(p, s + [c], rest, lib);
    FeedConcat(p, s, [c], lib);
    FeedLoops(p, s, lib);
    FeedOne(AppendAll(p, s), c, lib);
  }

  lemma FeedVerb(s: string, lib: Library)
    requires IsVerb(s)
    ensures Feed(START, s + " ", lib) == Parser(Uri, s, "", [], NoBody, "", ToUri)
  {
    assert s + " " == [s[0]] + (s[1..] + [' '] + "");
    FeedConcat(START, [s[0]], s[1..] + [' '] + "", lib);
    FeedOne(START, s[0], lib);
    var p := Append(START, s[0]).(phase := Method);
    FeedPiece(p, s[1..], ' ', "", lib);
    assert AppendAll(p, s[1..]).verb == s;
  }

  // The parser at the start of a phase of the request line.
  function At(phase: Phase, d: Doc): Parser {
    Parser(phase, d.verb, d.uri, [], NoBody, "", ToTemp)
  }

  lemma FeedVersion(d: Doc, rest: string, lib: Library)
    requires ValidHead(d)
    ensures Feed(At(Http, d), d.http + ['/'] + (d.major + ['.'] + (d.minor + ['\r'] + ("" + ['\n'] + rest))), lib)
              == Feed(At(HeaderLineStart, d), rest, lib)
  {
    HttpMeans(d.http);
    hide Feed, Lower, IsHttp;
    var r3 := "" + ['\n'] + rest;
    var r2 := d.minor + ['\r'] + r3;
    var r1 := d.major + ['.'] + r2;
    assert AppendAll(At(Http, d), d.http).temp == d.http;
    FeedPiece(At(Http, d), d.http, '/', r1, lib);
    FeedPiece(At(Major, d), d.major, '.', r2, lib);
    FeedPiece(At(Minor, d), d.minor, '\r', r3, lib);
    FeedPiece(At(ExpectingNewline1, d), "", '\n', rest, lib);
  }

  lemma FeedTarget(d: Doc, rest: string, lib: Library)
    requires ValidHead(d)
    ensures Feed(START, d.verb + " " + (d.uri + [' '] + rest), lib) == Feed(At(Http, d), rest, lib)
  {
    FeedConcat(START, d.verb + " ", d.uri + [' '] + rest, lib);
    FeedVerb(d.verb, lib);
    var p := Parser(Uri, d.verb, "", [], NoBody, "", ToUri);
    FeedPiece(p, d.uri, ' ', rest, lib);
    assert AppendAll(p, d.uri).uri == d.uri;
  }

  lemma FeedRequestLine(d: Doc, rest: string, lib: Library)
    requires ValidHead(d)
    ensures Feed(START, RequestLine(d) + rest, lib) == Feed(At(HeaderLineStart, d), rest, lib)
  {
    var r := d.http + ['/'] + (d.major + ['.'] + (d.minor + ['\r'] + ("" + ['\n'] + rest)));
    assert RequestLine(d) + rest == d.verb + " " + (d.uri + [' '] + r);
    FeedTarget(d, r, lib);
    FeedVersion(d, rest, lib);
  }

  /** After `lines`, the buffer holds all of them run together, and one header is recorded for each. */
  function AfterLines(d: Doc, lines: seq<string>): Parser {
    Parser(HeaderLineStart, d.verb, d.uri, Recorded(lines), NoBody, Joined(lines), ToTemp)
  }

  lemma JoinedAppend(lines: seq<string>, line: string)
    ensures Joined(lines + [line]) == Joined(lines) + line
    ensures Recorded(lines + [line]) == Recorded(lines) + [ParseHeader(Joined(lines) + line)]
  {
    assert (lines + [line])[..|lines|] == lines;
  }

  lemma LinesTextAppend(lines: seq<string>, line: string)
    ensures LinesText(lines + [line]) == LinesText(lines) + (line + "\r\n")
  {
    assert (lines + [line])[..|lines|] == lines;
  }

  lemma FeedLine(d: Doc, lines: seq<string>, line: string, lib: Library)
    requires AreLines(lines) && IsLine(line)
    ensures Feed(AfterLines(d, lines), line + "\r\n", lib) == AfterLines(d, lines + [line])
  {
    hide Feed, Joined, Recorded, ParseHeader;
    var p := AfterLines(d, lines);
    assert line + "\r\n" == [line[0]] + (line[1..] + ['\r'] + "\n");
    FeedConcat(p, [line[0]], line[1..] + ['\r'] + "\n", lib);
    FeedOne(p, line[0], lib);
    var q := p.(phase := HeaderLine);
    AppendFirst(q, line);
    FeedPiece(Append(q, line[0]), line[1..], '\r', "\n", lib);
    FeedOne(AppendAll(q, line).(phase := ExpectingNewline2), '\n', lib);
    JoinedAppend(lines, line);
    NameNeverEmpty(lines + [line]);
  }

  lemma {:induction false} FeedLines(d: Doc, lines: seq<string>, lib: Library)
    requires AreLines(lines)
    ensures Feed(AfterLines(d, []), LinesText(lines), lib) == AfterLines(d, lines)
    decreases |lines|
  {
    hide Step, Recorded, Joined;
    if lines != [] {
      hide Feed, AfterLines, LinesText;
      var init, line := lines[..|lines| - 1], lines[|lines| - 1];
      FeedLines(d, init, lib);
      LinesTextAppend(init, line);
      assert init + [line] == lines;
      FeedConcat(AfterLines(d, []), LinesText(init), line + "\r\n", lib);
      FeedLine(d, init, line, lib);
    }
  }

  /** Body framing: a parser that has collected `got` of `n` bytes finishes after exactly the missing ones, whatever
      they are, and the body is all of them. */
  lemma {:induction false} FeedBody(p: Parser, got: string, more: string, lib: Library)
    requires p.phase.ExpectingBody? && p.buffer.ToTemp? && p.temp == got
    requires more != "" && |got| + |more| == lib.length(p.headers)
    ensures Feed(p, more, lib) == p.(phase := Finish, body := Body(got + more, lib.contentType(p.headers)), temp := "")
    ensures forall i :: 0 <= i < |more| ==> Feed(p, more[..i], lib).phase.ExpectingBody?
    decreases |more|
  {
    var q := Step(p, more[0], lib);
    if |more| == 1 {
      assert more[1..] == "" && [more[0]] == more;
    } else {
      FeedBody(q, got + [more[0]], more[1..], lib);
      assert got + [more[0]] + more[1..] == got + more;
    }
    forall i | 0 <= i < |more| ensures Feed(p, more[..i], lib).phase.ExpectingBody? {
      if i > 0 {
        assert more[..i][1..] == more[1..][..i - 1];
      }
    }
  }

  lemma FeedNext(p: Parser, c: char, rest: string, lib: Library)
    ensures Feed(p, [c] + rest, lib) == Feed(Step(p, c, lib), rest, lib)
  {
    assert ([c] + rest)[1..] == rest;
  }

  // The blank line, after which the parser has finished or expects a body.
  lemma FeedBlank(d: Doc, rest: string, lib: Library)
    ensures var p := AfterLines(d, d.lines);
      Feed(p, "\r\n" + rest, lib)
        == Feed(if BodySize(d, lib) > 0 then Restart(p).(phase := ExpectingBody) else p.(phase := Finish), rest, lib)
  {
    hide Feed, Joined, Recorded;
    var p := AfterLines(d, d.lines);
    assert "\r\n" + rest == ['\r'] + (['\n'] + rest);
    FeedNext(p, '\r', ['\n'] + rest, lib);
    FeedNext(p.(phase := ExpectingNewline3), '\n', rest, lib);
  }

  lemma FeedEnd(d: Doc, lib: Library)
    requires |d.body| == BodySize(d, lib)
    ensures Feed(AfterLines(d, d.lines), "\r\n" + d.body, lib) == Result(d, lib)
  {
    hide Joined, Recorded;
    FeedBlank(d, d.body, lib);
    if d.body != "" {
      FeedBody(Restart(AfterLines(d, d.lines)).(phase := ExpectingBody), "", d.body, lib);
      hide Feed;
      assert "" + d.body == d.body;
    }
  }

  /** Every request of the language is accepted, exactly at its end, with the parts recorded as they are in it, but for
      the headers, which are those of the lines run together. */
  lemma AcceptsText(d: Doc, rest: string, lib: Library)
    requires Valid(d, lib)
    ensures Feed(START, Text(d) + rest, lib) == Result(d, lib)
  {
    var end := "\r\n" + d.body;
    assert Text(d) + rest == RequestLine(d) + (LinesText(d.lines) + (end + rest));
    FeedRequestLine(d, LinesText(d.lines) + (end + rest), lib);
    FeedConcat(AfterLines(d, []), LinesText(d.lines), end + rest, lib);
    FeedLines(d, d.lines, lib);
    FeedConcat(AfterLines(d, d.lines), end, rest, lib);
    FeedEnd(d, lib);
    FeedStopped(Result(d, lib), rest, lib);
  }
}
