/** The HTTP/1 request parser: a transition table over characters, whose actions append to whatever the buffer pointer
    points at. The lookups in the recorded headers belong to a library; the parser is stated for every such
    library. */
module HttpParser {

  datatype Phase =
    | Error | Start | Method | Uri | Http | Major | Minor
    | ExpectingNewline1 | HeaderLineStart | HeaderLine | ExpectingNewline2 | ExpectingNewline3
    | ExpectingBody | Finish

  /** The string that buffer_ points at. */
  datatype Target = ToMethod | ToUri | ToTemp

  datatype Header = Header(name: string, value: string)

  datatype Body = NoBody | Body(text: string, contentType: string)

  datatype Parser = Parser(phase: Phase, verb: string, uri: string, headers: seq<Header>, body: Body,
                           temp: string, buffer: Target)

  const START := Parser(Start, "", "", [], NoBody, "", ToMethod)

  /** What the library finds in the recorded headers: the length of the body, and its type or else "text/plain". */
  datatype Library = Library(length: seq<Header> -> int, contentType: seq<Header> -> string)

  // ----- characters, in the "C" locale

  predicate IsAlpha(c: char) {
    'a' <= c <= 'z' || 'A' <= c <= 'Z'
  }

  predicate IsDigit(c: char) {
    '0' <= c <= '9'
  }

  predicate IsPunct(c: char) {
    '!' <= c <= '/' || ':' <= c <= '@' || '[' <= c <= '`' || '{' <= c <= '~'
  }

  predicate IsSpace(c: char) {
    c == ' ' || '\t' <= c <= '\r'
  }

  predicate IsUriChar(c: char) {
    IsAlpha(c) || IsDigit(c) || IsPunct(c)
  }

  function LowerChar(c: char): char {
    if 'A' <= c <= 'Z' then c - 'A' + 'a' else c
  }

  function Lower(s: string): (r: string)
    ensures |r| == |s|
  {
    if s == "" then "" else [LowerChar(s[0])] + Lower(s[1..])
  }

  // ----- header lines

  function TrimLeft(s: string): string {
    if s != "" && IsSpace(s[0]) then TrimLeft(s[1..]) else s
  }

  function TrimRight(s: string): string {
    if s != "" && IsSpace(s[|s| - 1]) then TrimRight(s[..|s| - 1]) else s
  }

  function Trim(s: string): string {
    TrimRight(TrimLeft(s))
  }

  // The length of `s` up to its first colon, or all of it.
  function Colon(s: string): (i: nat)
    ensures i <= |s| && ':' !in s[..i] && (i < |s| ==> s[i] == ':')
  {
    if s == "" || s[0] == ':' then 0 else 1 + Colon(s[1..])
  }

  function ParseHeader(text: string): Header {
    var i := Colon(text);
    Header(Trim(text[..i]), if i < |text| then Trim(text[i + 1..]) else "")
  }

  // ----- actions

  function Append(p: Parser, c: char): Parser {
    match p.buffer
    case ToMethod => p.(verb := p.verb + [c])
    case ToUri => p.(uri := p.uri + [c])
    case ToTemp => p.(temp := p.temp + [c])
  }

  function Buffer(p: Parser): string {
    match p.buffer
    case ToMethod => p.verb
    case ToUri => p.uri
    case ToTemp => p.temp
  }

  // onUriFinish, onHttpFinish, onMajorFinish, onMinorFinish, onHeaderLineStart, onBodyStart
  function Restart(p: Parser): Parser {
    p.(temp := "", buffer := ToTemp)
  }

  function FinishHeaderLine(p: Parser): Parser {
    var header := ParseHeader(Buffer(p));
    if header.name != "" then p.(headers := p.headers + [header]) else p
  }

  function FinishBody(p: Parser, c: char, lib: Library): Parser {
    var q := Append(p, c);
    var r := q.(body := Body(Buffer(q), lib.contentType(q.headers)));
    match r.buffer
    case ToMethod => r.(verb := "")
    case ToUri => r.(uri := "")
    case ToTemp => r.(temp := "")
  }

  // ----- the transition table: in each phase, the first row whose guard holds

  function Step(p: Parser, c: char, lib: Library): Parser {
    match p.phase
    case Start =>
      if IsAlpha(c) then Append(p, c).(phase := Method)
      else p.(phase := Error)
    case Method =>
      if IsAlpha(c) then Append(p, c)
      else if c == ' ' && (p.verb == "GET" || p.verb == "POST") then p.(phase := Uri, buffer := ToUri)
      else p.(phase := Error)
    case Uri =>
      if IsUriChar(c) then Append(p, c)
      else if c == ' ' then Restart(p).(phase := Http)
      else p.(phase := Error)
    case Http =>
      if IsAlpha(c) then Append(p, c)
      else if c == '/' && Lower(p.temp) == "http" then Restart(p).(phase := Major)
      else p.(phase := Error)
    case Major =>
      if IsDigit(c) then Append(p, c)
      else if c == '.' then Restart(p).(phase := Minor)
      else p.(phase := Error)
    case Minor =>
      if IsDigit(c) then Append(p, c)
      else if c == '\r' then Restart(p).(phase := ExpectingNewline1)
      else p.(phase := Error)
    case ExpectingNewline1 =>
      if c == '\n' then Restart(p).(phase := HeaderLineStart)
      else p.(phase := Error)
    case HeaderLineStart =>
      if c == '\r' then p.(phase := ExpectingNewline3)
      else if IsAlpha(c) then Append(p, c).(phase := HeaderLine)
      else p.(phase := Error)
    case HeaderLine =>
      if c == '\r' then p.(phase := ExpectingNewline2)
      else if c == '\n' then p.(phase := Error)
      else Append(p, c)
    case ExpectingNewline2 =>
      if c == '\n' then FinishHeaderLine(p).(phase := HeaderLineStart)
      else p.(phase := Error)
    case ExpectingNewline3 =>
      if c == '\n' && p.verb == "POST" && lib.length(p.headers) > 0 then Restart(p).(phase := ExpectingBody)
      else if c == '\n' then p.(phase := Finish)
      else p.(phase := Error)
    case ExpectingBody =>
      if |Buffer(p)| + 1 < lib.length(p.headers) then Append(p, c)
      else FinishBody(p, c, lib).(phase := Finish)
    case _ => p // no row: the event is ignored
  }

  /** The parser after all of `s`. It ignores what comes after it has reached Error or Finish. */
  function Feed(p: Parser, s: string, lib: Library): Parser
    decreases |s|
  {
    if s == "" then p else Feed(Step(p, s[0], lib), s[1..], lib)
  }

  predicate Stopped(p: Parser) {
    p.phase.Error? || p.phase.Finish?
  }

  lemma {:induction false} FeedConcat(p: Parser, a: string, b: string, lib: Library)
    ensures Feed(p, a + b, lib) == Feed(Feed(p, a, lib), b, lib)
    decreases |a|
  {
    if a == "" {
      assert a + b == b;
    } else {
      assert (a + b)[1..] == a[1..] + b;
      FeedConcat(Step(p, a[0], lib), a[1..], b, lib);
    }
  }

  lemma {:induction false} FeedStopped(p: Parser, s: string, lib: Library)
    requires Stopped(p)
    ensures Feed(p, s, lib) == p
    decreases |s|
  {
    if s != "" {
      FeedStopped(p, s[1..], lib);
    }
  }

  /** The parser object, and the loop that drives it. */
  class HttpRequestParser {
    const lib: Library
    var phase: Phase
    var verb: string
    var uri: string
    var headers: seq<Header>
    var body: Body
    var temp: string
    var buffer: Target

    ghost function View(): Parser
      reads this
    {
      Parser(phase, verb, uri, headers, body, temp, buffer)
    }

    constructor (library: Library)
      ensures View() == START && lib == library
    {
      lib := library;
      phase, verb, uri, headers, body, temp, buffer := Start, "", "", [], NoBody, "", ToMethod;
    }

    method AppendToBuffer(c: char)
      modifies this
      ensures View() == Append(old(View()), c)
    {
      match buffer
      case ToMethod => verb := verb + [c];
      case ToUri => uri := uri + [c];
      case ToTemp => temp := temp + [c];
    }

    method RestartBuffer(next: Phase)
      modifies this
      ensures View() == Restart(old(View())).(phase := next)
    {
      temp := "";
      buffer := ToTemp;
      phase := next;
    }

    method OnHeaderLineFinish()
      modifies this
      ensures View() == FinishHeaderLine(old(View()))
    {
      var text := match buffer { case ToMethod => verb case ToUri => uri case ToTemp => temp };
      var header := ParseHeader(text);
      if |header.name| > 0 {
        headers := headers + [header];
      }
    }

    method OnBodyFinish(c: char)
      modifies this
      ensures View() == FinishBody(old(View()), c, lib)
    {
      AppendToBuffer(c);
      var contentType := lib.contentType(headers);
      match buffer
      case ToMethod => body := Body(verb, contentType); verb := "";
      case ToUri => body := Body(uri, contentType); uri := "";
      case ToTemp => body := Body(temp, contentType); temp := "";
    }

    // process_event, on the request line
    method ProcessRequestLine(c: char)
      requires phase in {Start, Method, Uri, Http, Major, Minor, ExpectingNewline1}
      modifies this
      ensures View() == Step(old(View()), c, lib)
    {
      match phase
      case Start => if IsAlpha(c) { AppendToBuffer(c); phase := Method; } else { phase := Error; }
      case Method =>
        if IsAlpha(c) { AppendToBuffer(c); }
        else if c == ' ' && (verb == "GET" || verb == "POST") { buffer := ToUri; phase := Uri; }
        else { phase := Error; }
      case Uri =>
        if IsUriChar(c) { AppendToBuffer(c); }
        else if c == ' ' { RestartBuffer(Http); }
        else { phase := Error; }
      case Http =>
        if IsAlpha(c) { AppendToBuffer(c); }
        else if c == '/' && Lower(temp) == "http" { RestartBuffer(Major); }
        else { phase := Error; }
      case Major =>
        if IsDigit(c) { AppendToBuffer(c); }
        else if c == '.' { RestartBuffer(Minor); }
        else { phase := Error; }
      case Minor =>
        if IsDigit(c) { AppendToBuffer(c); }
        else if c == '\r' { RestartBuffer(ExpectingNewline1); }
        else { phase := Error; }
      case ExpectingNewline1 =>
        if c == '\n' { RestartBuffer(HeaderLineStart); } else { phase := Error; }
    }

    method ProcessEvent(c: char)
      modifies this
      ensures View() == Step(old(View()), c, lib)
    {
      match phase
      case HeaderLineStart =>
        if c == '\r' { phase := ExpectingNewline3; }
        else if IsAlpha(c) { AppendToBuffer(c); phase := HeaderLine; }
        else { phase := Error; }
      case HeaderLine =>
        if c == '\r' { phase := ExpectingNewline2; }
        else if c == '\n' { phase := Error; }
        else { AppendToBuffer(c); }
      case ExpectingNewline2 =>
        if c == '\n' { OnHeaderLineFinish(); phase := HeaderLineStart; } else { phase := Error; }
      case ExpectingNewline3 =>
        if c == '\n' && verb == "POST" && lib.length(headers) > 0 { RestartBuffer(ExpectingBody); }
        else if c == '\n' { phase := Finish; }
        else { phase := Error; }
      case ExpectingBody =>
        var size := match buffer { case ToMethod => |verb| case ToUri => |uri| case ToTemp => |temp| };
        if size + 1 < lib.length(headers) { AppendToBuffer(c); } else { OnBodyFinish(c); phase := Finish; }
      case Error =>
      case Finish =>
      case _ => ProcessRequestLine(c);
    }

    // The loop of main: stop at the first error, or when the request is complete.
    method Drive(input: string) returns (error: bool)
      modifies this
      ensures View() == Feed(old(View()), input, lib)
      ensures error <==> input != "" && phase == Error
    {
      error := false;
      ghost var before := View();
      var i := 0;
      while i < |input|
        invariant 0 <= i <= |input|
        invariant View() == Feed(before, input[..i], lib)
        invariant !error
        invariant i > 0 ==> !Stopped(View())
      {
        ghost var p := View();
        ProcessEvent(input[i]);
        assert input[..i + 1] == input[..i] + [input[i]];
        FeedConcat(before, input[..i], [input[i]], lib);
        assert Feed(p, [input[i]], lib) == Step(p, input[i], lib);
        if phase == Error || phase == Finish {
          FeedConcat(before, input[..i + 1], input[i + 1..], lib);
          FeedStopped(View(), input[i + 1..], lib);
          assert input == input[..i + 1] + input[i + 1..];
          error := phase == Error;
          return;
        }
        i := i + 1;
      }
      assert input[..i] == input;
    }
  }
}
