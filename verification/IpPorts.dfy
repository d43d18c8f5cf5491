/** The ip:port list flag: its parser and its printer. How the library reads an integer is left open: the flag is stated
    for every such function. */
module IpPorts {

  datatype IpPort = IpPort(ip: string, port: string)

  /** What the library makes of the text of an integer flag. */
  datatype Parsed = Number(value: int) | Failed(error: string)

  type ParseInt = string -> Parsed

  function ToText(e: IpPort): string {
    e.ip + ":" + e.port
  }

  // absl::StrJoin
  function Join(parts: seq<string>, sep: char): string {
    if parts == [] then "" else if |parts| == 1 then parts[0] else parts[0] + [sep] + Join(parts[1..], sep)
  }

  // absl::StrSplit: at least one piece, none of which holds the separator.
  function Split(text: string, sep: char): (r: seq<string>)
    ensures r != [] && forall i :: 0 <= i < |r| ==> sep !in r[i]
    decreases |text|
  {
    if text == "" then [""]
    else
      var rest := Split(text[1..], sep);
      if text[0] == sep then [""] + rest else [[text[0]] + rest[0]] + rest[1..]
  }

  function Texts(entries: seq<IpPort>): seq<string> {
    seq(|entries|, i requires 0 <= i < |entries| => ToText(entries[i]))
  }

  function Unparse(entries: seq<IpPort>): string {
    Join(Texts(entries), ',')
  }

  // ----- the two library functions undo each other

  lemma {:induction false} JoinSplit(text: string, sep: char)
    ensures Join(Split(text, sep), sep) == text
    decreases |text|
  {
    if text != "" {
      var rest := Split(text[1..], sep);
      JoinSplit(text[1..], sep);
      if text[0] == sep {
        assert ([""] + rest)[1..] == rest;
        assert "" + [sep] + text[1..] == text;
      } else {
        var parts := [[text[0]] + rest[0]] + rest[1..];
        assert parts[1..] == rest[1..];
        if |rest| == 1 {
          assert [text[0]] + text[1..] == text;
        } else {
          assert [text[0]] + rest[0] + [sep] + Join(rest[1..], sep) == [text[0]] + text[1..] == text;
        }
      }
    }
  }

  lemma {:induction false} SplitOne(s: string, sep: char)
    requires sep !in s
    ensures Split(s, sep) == [s]
    decreases |s|
  {
    if s != "" {
      SplitOne(s[1..], sep);
      assert [s[0]] + s[1..] == s;
    }
  }

  lemma {:induction false} SplitFirst(a: string, b: string, sep: char)
    requires sep !in a
    ensures Split(a + [sep] + b, sep) == [a] + Split(b, sep)
    decreases |a|
  {
    var text := a + [sep] + b;
    if a == "" {
      assert text[1..] == b;
    } else {
      assert text[1..] == a[1..] + [sep] + b;
      SplitFirst(a[1..], b, sep);
      assert [a[0]] + a[1..] == a;
    }
  }

  lemma {:induction false} SplitJoin(parts: seq<string>, sep: char)
    requires parts != [] && forall i :: 0 <= i < |parts| ==> sep !in parts[i]
    ensures Split(Join(parts, sep), sep) == parts
    decreases |parts|
  {
    if |parts| == 1 {
      SplitOne(parts[0], sep);
    } else {
      SplitFirst(parts[0], Join(parts[1..], sep), sep);
      SplitJoin(parts[1..], sep);
      assert [parts[0]] + parts[1..] == parts;
    }
  }

  // There is one piece more than there are separators.
  lemma {:induction false} SplitCount(text: string, sep: char)
    ensures |Split(text, sep)| == 1 + multiset(text)[sep]
    decreases |text|
  {
    if text != "" {
      SplitCount(text[1..], sep);
      assert text == [text[0]] + text[1..];
    }
  }

  // ----- the flag

  predicate GoodPort(port: string, parse: ParseInt) {
    parse(port).Number? && 0 <= parse(port).value <= 32767
  }

  /** A piece that the parser accepts: exactly one colon, and a port in range after it. */
  predicate GoodPiece(piece: string, parse: ParseInt) {
    var pair := Split(piece, ':');
    |pair| == 2 && GoodPort(pair[1], parse)
  }

  function Entry(piece: string): IpPort {
    var pair := Split(piece, ':');
    if |pair| == 2 then IpPort(pair[0], pair[1]) else IpPort(piece, "")
  }

  function Entries(pieces: seq<string>): seq<IpPort> {
    seq(|pieces|, i requires 0 <= i < |pieces| => Entry(pieces[i]))
  }

  function ErrorOf(piece: string, parse: ParseInt): string {
    var pair := Split(piece, ':');
    if |pair| != 2 then "invalid ipport: " + piece
    else match parse(pair[1]) {
      case Failed(e) => e
      case Number(_) => "invalid port: " + pair[1]
    }
  }

  function Pieces(text: string): seq<string> {
    if text == "" then [] else Split(text, ',')
  }

  // The number of pieces before the first bad one.
  function GoodPrefix(pieces: seq<string>, parse: ParseInt): (n: nat)
    ensures n <= |pieces|
    ensures forall i :: 0 <= i < n ==> GoodPiece(pieces[i], parse)
    ensures n < |pieces| ==> !GoodPiece(pieces[n], parse)
  {
    if pieces == [] || !GoodPiece(pieces[0], parse) then 0 else 1 + GoodPrefix(pieces[1..], parse)
  }

  /** The text is accepted, and `entries` is what it appends to a list. */
  predicate Parses(text: string, entries: seq<IpPort>, parse: ParseInt) {
    var pieces := Pieces(text);
    (forall i :: 0 <= i < |pieces| ==> GoodPiece(pieces[i], parse)) && entries == Entries(pieces)
  }

  /** A piece is accepted exactly if it is an address, a colon and a port without further colons, and the library reads
      the port as a number of 15 bits. */
  lemma GoodPieceMeans(piece: string, parse: ParseInt)
    ensures GoodPiece(piece, parse) <==>
      exists e: IpPort :: piece == e.ip + ":" + e.port && ':' !in e.ip && ':' !in e.port
                          && parse(e.port).Number? && 0 <= parse(e.port).value < 0x8000
  {
    if GoodPiece(piece, parse) {
      JoinSplit(piece, ':');
      var pair := Split(piece, ':');
      assert Join(pair, ':') == pair[0] + [':'] + pair[1];
      var e := IpPort(pair[0], pair[1]);
      assert piece == e.ip + ":" + e.port;
    }
    if e: IpPort :| piece == e.ip + ":" + e.port && ':' !in e.ip && ':' !in e.port
                    && parse(e.port).Number? && 0 <= parse(e.port).value < 0x8000 {
      SplitFirst(e.ip, e.port, ':');
      SplitOne(e.port, ':');
    }
  }

  /** Why a piece is not accepted, and what is said then. */
  lemma ErrorMeans(piece: string, parse: ParseInt)
    requires !GoodPiece(piece, parse)
    ensures multiset(piece)[':'] != 1 ==> ErrorOf(piece, parse) == "invalid ipport: " + piece
    ensures multiset(piece)[':'] == 1 ==> exists e: IpPort ::
      && piece == e.ip + ":" + e.port && ':' !in e.port
      && (parse(e.port).Failed? ==> ErrorOf(piece, parse) == parse(e.port).error)
      && (parse(e.port).Number? ==> !(0 <= parse(e.port).value < 0x8000)
                                    && ErrorOf(piece, parse) == "invalid port: " + e.port)
  {
    SplitCount(piece, ':');
    if multiset(piece)[':'] == 1 {
      JoinSplit(piece, ':');
      var pair := Split(piece, ':');
      assert Join(pair, ':') == pair[0] + [':'] + pair[1];
      var e := IpPort(pair[0], pair[1]);
      assert piece == e.ip + ":" + e.port;
    }
  }

  /** The parser appends the entries of the pieces before the first bad one to the list it is given; it succeeds when
      there is no bad piece, and otherwise reports the first one. */
  method ParseFlag(text: string, before: seq<IpPort>, parse: ParseInt)
      returns (ok: bool, ipPorts: seq<IpPort>, error: string)
    ensures var pieces := Pieces(text); var n := GoodPrefix(pieces, parse);
      && ipPorts == before + Entries(pieces[..n])
      && (ok <==> n == |pieces|)
      && (!ok ==> error == ErrorOf(pieces[n], parse))
    ensures if ok then Parses(text, ipPorts[|before|..], parse)
            else forall entries :: !Parses(text, entries, parse)
    ensures |before| <= |ipPorts| && forall i :: |before| <= i < |ipPorts| ==>
      parse(ipPorts[i].port).Number? && 0 <= parse(ipPorts[i].port).value < 0x8000
  {
    hide Split;
    ipPorts, error := before, "";
    if |text| == 0 {
      return true, ipPorts, error;
    }
    var pieces := Split(text, ',');
    ghost var good := GoodPrefix(pieces, parse);
    for i := 0 to |pieces|
      invariant i <= good
      invariant ipPorts == before + Entries(pieces[..i])
    {
      var p := pieces[i];
      var pair := Split(p, ':');
      if |pair| != 2 {
        return false, ipPorts, "invalid ipport: " + p;
      }
      var port := parse(pair[1]);
      if port.Failed? {
        return false, ipPorts, port.error;
      }
      if port.value < 0 || port.value > 32767 {
        return false, ipPorts, "invalid port: " + pair[1];
      }
      ipPorts := ipPorts + [IpPort(pair[0], pair[1])];
      assert pieces[..i + 1] == pieces[..i] + [p];
      assert GoodPiece(p, parse);
    }
    assert pieces[..|pieces|] == pieces;
    ok := true;
  }

  // ----- parser and printer

  predicate ValidEntry(e: IpPort, parse: ParseInt) {
    ',' !in e.ip && ':' !in e.ip && ',' !in e.port && ':' !in e.port && GoodPort(e.port, parse)
  }

  predicate ValidEntries(entries: seq<IpPort>, parse: ParseInt) {
    forall i :: 0 <= i < |entries| ==> ValidEntry(entries[i], parse)
  }

  lemma EntryText(piece: string, parse: ParseInt)
    requires GoodPiece(piece, parse) && ',' !in piece
    ensures ToText(Entry(piece)) == piece && ValidEntry(Entry(piece), parse)
  {
    JoinSplit(piece, ':');
    var pair := Split(piece, ':');
    assert Join(pair, ':') == pair[0] + [':'] + pair[1];
    assert forall c :: c in pair[0] || c in pair[1] ==> c in pair[0] + [':'] + pair[1];
  }

  lemma TextEntry(e: IpPort, parse: ParseInt)
    requires ValidEntry(e, parse)
    ensures Entry(ToText(e)) == e && GoodPiece(ToText(e), parse) && ',' !in ToText(e)
  {
    SplitFirst(e.ip, e.port, ':');
    SplitOne(e.port, ':');
    assert ToText(e) == e.ip + [':'] + e.port;
  }

  /** Printing what an accepted text appends to an empty list gives the text back. */
  lemma UnparseParsed(text: string, entries: seq<IpPort>, parse: ParseInt)
    requires Parses(text, entries, parse)
    ensures Unparse(entries) == text && ValidEntries(entries, parse)
  {
    var pieces := Pieces(text);
    forall i | 0 <= i < |pieces| ensures Texts(entries)[i] == pieces[i] && ValidEntry(entries[i], parse) {
      EntryText(pieces[i], parse);
    }
    assert Texts(entries) == pieces;
    JoinSplit(text, ',');
  }

  /** Parsing what was printed appends the list itself exactly when its entries are valid: no comma and no colon in
      either part, and a port in range. */
  lemma ParseUnparsed(entries: seq<IpPort>, parse: ParseInt)
    ensures Parses(Unparse(entries), entries, parse) <==> ValidEntries(entries, parse)
  {
    if Parses(Unparse(entries), entries, parse) {
      UnparseParsed(Unparse(entries), entries, parse);
    }
    if ValidEntries(entries, parse) && entries != [] {
      var texts := Texts(entries);
      forall i | 0 <= i < |texts|
        ensures ',' !in texts[i] && Entry(texts[i]) == entries[i] && GoodPiece(texts[i], parse)
      {
        TextEntry(entries[i], parse);
      }
      SplitJoin(texts, ',');
      NotEmpty(entries);
      assert Entries(texts) == entries;
    }
  }

  lemma NotEmpty(entries: seq<IpPort>)
    requires entries != []
    ensures Unparse(entries) != ""
  {
    assert Texts(entries)[0] == ToText(entries[0]);
  }
}
