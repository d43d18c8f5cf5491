/** The 64-bit operation tags of the asynchronous server: a session id shifted left by two bits,
    with the event in the low two bits. */
module Tags {

  const WORD: nat := 0x1_0000_0000_0000_0000 // 2^64, the range of uint64_t
  const IDS: nat := 0x4000_0000_0000_0000    // 2^62, the ids that survive the shift

  datatype Event = Connected | ReadDone | WriteDone | Finished

  function Code(e: Event): nat {
    match e
    case Connected => 0
    case ReadDone => 1
    case WriteDone => 2
    case Finished => 3
  }

  function EventOf(code: nat): Event
    requires code < 4
  {
    match code
    case 0 => Connected
    case 1 => ReadDone
    case 2 => WriteDone
    case _ => Finished
  }

  // `id << 2 | event` on 64 bits: the shift drops the two top bits and leaves the two low bits zero,
  // so that or-ing in a two-bit event is an addition.
  function Tagify(id: nat, e: Event): nat {
    (id * 4) % WORD + Code(e)
  }

  // `tag >> 2` and `tag & 3`.
  function Detagify(tag: nat): (nat, Event) {
    (tag / 4, EventOf(tag % 4))
  }

  /** A tag fits its 64-bit word, always gives back its event, and gives back its id exactly when
      the id is below 2^62. */
  lemma TagRoundTrip(id: nat, e: Event)
    requires id < WORD
    ensures Tagify(id, e) < WORD
    ensures Detagify(Tagify(id, e)).1 == e
    ensures Detagify(Tagify(id, e)).0 == id % IDS
    ensures Detagify(Tagify(id, e)) == (id, e) <==> id < IDS
  {
    var q := id / IDS;
    assert id * 4 == (id % IDS) * 4 + q * WORD;
    assert (id * 4) % WORD == (id % IDS) * 4;
  }

  /** Two sessions with ids below 2^62 share a tag only if they are the same session and event;
      an id shares every one of its tags with the id 2^62 above it. */
  lemma TagsCollideExactly(a: nat, b: nat, e: Event, f: Event)
    requires a < WORD && b < WORD
    ensures Tagify(a, e) == Tagify(b, f) <==> e == f && a % IDS == b % IDS
  {
    TagRoundTrip(a, e);
    TagRoundTrip(b, f);
    assert Tagify(a, e) == Detagify(Tagify(a, e)).0 * 4 + Code(e);
    assert Tagify(b, f) == Detagify(Tagify(b, f)).0 * 4 + Code(f);
  }
}
