/** What running the header lines together does to the body: with a library that looks the length of the body up under
    the name of a header, the body of a printed request is found exactly when that header comes first. */
module HttpLength {
  import opened HttpParser
  import opened HttpGrammar
  import opened HttpLanguage

  // ----- numbers in decimal

  function DigitValue(c: char): nat
    requires IsDigit(c)
  {
    (c - '0') as nat
  }

  // The value of the digits at the start of `s`, after digits of value `n`.
  function DigitsValue(s: string, n: nat): nat
    decreases |s|
  {
    if s != "" && IsDigit(s[0]) then DigitsValue(s[1..], 10 * n + DigitValue(s[0])) else n
  }

  // atoi: spaces, a sign, and as many digits as there are; what follows is ignored.
  function Atoi(s: string): int {
    var t := TrimLeft(s);
    if t != "" && t[0] == '-' then 0 - DigitsValue(t[1..], 0)
    else if t != "" && t[0] == '+' then DigitsValue(t[1..], 0)
    else DigitsValue(t, 0)
  }

  function Decimal(n: nat): (s: string)
    ensures s != "" && IsDigit(s[0])
  {
    if n < 10 then ['0' + n as char] else Decimal(n / 10) + ['0' + (n % 10) as char]
  }

  lemma {:induction false} DecimalValue(n: nat, rest: string)
    ensures DigitsValue(Decimal(n) + rest, 0) == DigitsValue(rest, n)
    decreases n
  {
    var digit := '0' + (n % 10) as char;
    assert ([digit] + rest)[1..] == rest;
    if n >= 10 {
      assert Decimal(n) + rest == Decimal(n / 10) + ([digit] + rest);
      DecimalValue(n / 10, [digit] + rest);
    }
  }

  /** atoi gives back a number that was printed, even with a text run into it, as long as that starts with a letter. */
  lemma AtoiDecimal(n: nat, rest: string)
    requires rest == "" || IsAlpha(rest[0])
    ensures Atoi(Decimal(n) + rest) == n
  {
    DecimalValue(n, rest);
  }

  lemma {:induction false} TrimRightKeeps(a: string, b: string) returns (kept: string)
    requires a != "" && !IsSpace(a[|a| - 1])
    ensures kept <= b && TrimRight(a + b) == a + kept
    decreases |b|
  {
    kept := b;
    if b == "" {
      assert a + b == a;
    } else if IsSpace(b[|b| - 1]) {
      assert (a + b)[..|a + b| - 1] == a + b[..|b| - 1];
      kept := TrimRightKeeps(a, b[..|b| - 1]);
    }
  }

  lemma DecimalEnds(n: nat)
    ensures IsDigit(Decimal(n)[|Decimal(n)| - 1])
  {
  }

  lemma TrimmedLength(n: nat, more: string)
    requires more == "" || IsAlpha(more[0])
    ensures Atoi(Trim(Decimal(n) + more)) == n
  {
    DecimalEnds(n);
    var kept := TrimRightKeeps(Decimal(n), more);
    assert TrimLeft(Decimal(n) + more) == Decimal(n) + more;
    AtoiDecimal(n, kept);
  }

  // ----- the lookup

  /** Which header names the library takes for Content-Length; the library may or may not tell upper from lower case. */
  type Named = string -> bool

  predicate Names(hs: seq<Header>, named: Named) {
    exists i :: 0 <= i < |hs| && named(hs[i].name)
  }

  predicate FoundIn(hs: seq<Header>, named: Named, n: int) {
    exists i :: 0 <= i < |hs| && named(hs[i].name) && n == Atoi(hs[i].value)
  }

  /** The length is the number in some header of that name, whichever the library takes, and 0 if there is none. */
  ghost predicate LooksUp(lib: Library, named: Named) {
    forall hs: seq<Header> ::
      if Names(hs, named) then FoundIn(hs, named, lib.length(hs)) else lib.length(hs) == 0
  }

  // The first header of that name.
  function FirstLength(hs: seq<Header>, named: Named): int {
    if hs == [] then 0 else if named(hs[0].name) then Atoi(hs[0].value) else FirstLength(hs[1..], named)
  }

  lemma {:induction false} FirstFound(hs: seq<Header>, named: Named)
    ensures if Names(hs, named) then FoundIn(hs, named, FirstLength(hs, named)) else FirstLength(hs, named) == 0
    decreases |hs|
  {
    if hs != [] && !named(hs[0].name) {
      var rest := hs[1..];
      FirstFound(rest, named);
      if Names(hs, named) {
        var i :| 0 <= i < |hs| && named(hs[i].name);
        assert named(rest[i - 1].name);
        var j :| 0 <= j < |rest| && named(rest[j].name) && FirstLength(hs, named) == Atoi(rest[j].value);
        assert hs[j + 1] == rest[j];
      }
    }
  }

  /** A library that takes the first such header is one of those meant. */
  lemma FirstLooksUp(lib: Library, named: Named)
    requires forall hs :: lib.length(hs) == FirstLength(hs, named)
    ensures LooksUp(lib, named)
  {
    forall hs: seq<Header>
      ensures if Names(hs, named) then FoundIn(hs, named, lib.length(hs)) else lib.length(hs) == 0
    {
      FirstFound(hs, named);
    }
  }

  // ----- the body of a printed request

  /** The sender says how long the body is, in every header of that name, and in one at least if there is a body. */
  predicate Declares(r: Request, named: Named) {
    && (forall i :: 0 <= i < |r.headers| && named(r.headers[i].name) ==> r.headers[i].value == Decimal(|r.body|))
    && (r.body != "" ==> Names(r.headers, named))
  }

  // A record under the name of the first header holds the number of the first header.
  lemma RecordedLength(r: Request, named: Named, i: nat)
    requires GoodHead(r) && Declares(r, named) && i < |r.headers| && named(r.headers[0].name)
    ensures |Recorded(PrintHeaders(r.headers))| == |r.headers|
    ensures Atoi(Recorded(PrintHeaders(r.headers))[i].value) == |r.body|
  {
    var hs := r.headers;
    var lines := PrintHeaders(hs);
    PartsValid(r);
    RecordedAt(lines, i);
    var more := JoinedRest(lines[..i + 1]);
    ParsePrinted(hs[0], more);
    hide Recorded, Joined, ParseHeader, PrintHeader, Trim, Atoi;
    TrimmedLength(|r.body|, more);
  }

  /** The length that the parser goes by is the length declared if that header comes first, and otherwise 0. */
  lemma LengthRead(r: Request, lib: Library, named: Named)
    requires GoodHead(r) && Declares(r, named) && LooksUp(lib, named)
    ensures lib.length(Recorded(PrintHeaders(r.headers)))
         == if r.headers != [] && named(r.headers[0].name) then |r.body| else 0
  {
    var hs := r.headers;
    var found := Recorded(PrintHeaders(hs));
    RecordedSize(PrintHeaders(hs));
    hide Recorded, Atoi, Declares, GoodHeaders;
    forall i | 0 <= i < |hs| ensures found[i].name == hs[0].name {
      RecordedNames(hs, i);
    }
    if hs != [] && named(hs[0].name) {
      forall i | 0 <= i < |hs| ensures Atoi(found[i].value) == |r.body| {
        RecordedLength(r, named, i);
      }
      assert named(found[0].name);
    }
  }

  lemma RecordedSize(lines: seq<string>)
    ensures |Recorded(lines)| == |lines|
  {
    if lines != [] {
      RecordedAt(lines, 0);
    }
  }

  /** The body of a printed request is read back exactly if it is that of a POST request whose first header tells its
      length; otherwise the parser ends at the blank line without a body. */
  lemma BodyReadBack(r: Request, rest: string, lib: Library, named: Named)
    requires GoodHead(r) && Declares(r, named) && LooksUp(lib, named)
    ensures var p := Feed(START, Print(r) + rest, lib);
      && p.phase.Finish? && p.verb == r.verb && p.uri == r.uri
      && (if r.verb == "POST" && r.body != "" && named(r.headers[0].name)
          then p.body.Body? && p.body.text == r.body else p.body.NoBody?)
  {
    hide Feed, Recorded, Joined, ValidHead, LooksUp, Text;
    LengthRead(r, lib, named);
    PartsValid(r);
    var d := Parts(r);
    if r.verb == "POST" && r.headers != [] && named(r.headers[0].name) {
      AcceptsText(d, rest, lib);
    } else {
      var e := d.(body := "");
      HeadOnly(d, rest);
      AcceptsText(e, d.body + rest, lib);
    }
  }

  lemma HeadOnly(d: Doc, rest: string)
    requires ValidHead(d)
    ensures var e := d.(body := "");
      ValidHead(e) && Text(d) + rest == Text(e) + (d.body + rest)
  {
  }
}
