/** One streaming session of the asynchronous server: its status, its pending-message queue, its
    request slot, and the histories that the properties of the server are stated over. */
module Sessions {
  import opened Tags

  datatype Status = WaitToConnect | ReadyToWrite | WaitWriteDone

  datatype Message = Hello(name: string) | Broadcast

  /** What happened to the session so far: the messages `SendResponse` took on, the messages handed to
      the stream, the number of reads started, the names that completed reads brought in, and the
      names that were answered. */
  datatype Log = Log(accepted: seq<Message>, written: seq<Message>, started: nat,
                     received: seq<string>, answered: seq<string>)

  datatype Session = Session(status: Status, queue: seq<Message>, request: string, log: Log)

  /** The stream operation that a piece of session code starts. */
  datatype Effect = Silent | StartRead | StartWrite

  const NEW_SESSION := Session(WaitToConnect, [], "", Log([], [], 0, [], []))

  // The names of the replies among `ms`, in order.
  function Replies(ms: seq<Message>): seq<string> {
    if ms == [] then []
    else Replies(ms[..|ms| - 1]) + match ms[|ms| - 1] { case Hello(n) => [n] case Broadcast => [] }
  }

  // The number of broadcast copies among `ms`.
  function Copies(ms: seq<Message>): nat {
    if ms == [] then 0
    else Copies(ms[..|ms| - 1]) + if ms[|ms| - 1].Broadcast? then 1 else 0
  }

  // stream_.Write of the message `m`
  function Written(log: Log, m: Message): Log {
    log.(written := log.written + [m])
  }

  function Accepted(log: Log, m: Message): Log {
    log.(accepted := log.accepted + [m])
  }

  function SendResponse(x: Session, m: Message): (Session, Effect) {
    match x.status
    case WaitToConnect => (x, Silent)
    case ReadyToWrite =>
      (x.(status := WaitWriteDone, log := Written(Accepted(x.log, m), m)), StartWrite)
    case WaitWriteDone =>
      (x.(queue := x.queue + [m], log := Accepted(x.log, m)), Silent)
  }

  function Read(x: Session): (Session, Effect) {
    (x.(log := x.log.(started := x.log.started + 1)), StartRead)
  }

  // A completed read brought `name` into the request slot.
  function Receive(x: Session, name: string): Session {
    x.(request := name, log := x.log.(received := x.log.received + [name]))
  }

  /** `ProcessEvent` starts at most two stream operations. It is cut after the first visible one, so that
      another thread can be scheduled between the two halves. */
  function FirstHalf(x: Session, e: Event): (Session, Effect) {
    match e
    case Connected => Read(x)
    case ReadDone =>
      var (y, effect) := SendResponse(x, Hello(x.request));
      (y.(log := y.log.(answered := y.log.answered + [x.request])), effect)
    case WriteDone =>
      if x.queue != [] then
        (x.(status := WaitWriteDone, queue := x.queue[1..], log := Written(x.log, x.queue[0])), StartWrite)
      else
        (x.(status := ReadyToWrite), Silent)
    case Finished => (x, Silent)
  }

  predicate HasSecondHalf(e: Event) {
    e.Connected? || e.ReadDone?
  }

  function SecondHalf(x: Session, e: Event): (Session, Effect)
    requires HasSecondHalf(e)
  {
    match e
    case Connected => (x.(status := ReadyToWrite), Silent)
    case ReadDone => Read(x)
  }

  /** Messages taken on are messages written, then messages queued; only a session with a write under way
      has a queue; a session that is not connected has taken on nothing; and the replies among the
      messages taken on are the names answered, in order. */
  predicate Balanced(x: Session) {
    && x.log.accepted == x.log.written + x.queue
    && Replies(x.log.accepted) == x.log.answered
    && (!x.status.WaitWriteDone? ==> x.queue == [])
    && (x.status.WaitToConnect? ==> x.log.accepted == [])
  }

  /** Each half of `ProcessEvent` keeps a session balanced. The condition is what the server has to
      provide: a completed read is only processed once the session is connected, and a connect event only
      before. */
  lemma HalvesKeepBalance(x: Session, e: Event)
    requires Balanced(x)
    requires e.ReadDone? || e.WriteDone? ==> !x.status.WaitToConnect?
    requires e.Connected? ==> x.status.WaitToConnect?
    ensures Balanced(FirstHalf(x, e).0)
    ensures HasSecondHalf(e) ==> Balanced(SecondHalf(FirstHalf(x, e).0, e).0)
  {
    if e.ReadDone? {
      SendAppends(x, Hello(x.request));
    }
  }

  /** A connected session takes on exactly the message given, at the end, and stays balanced; the
      caller's part is to record whom a reply answers. */
  lemma SendAppends(x: Session, m: Message)
    requires !x.status.WaitToConnect?
    ensures SendResponse(x, m).0.log.accepted == x.log.accepted + [m]
    ensures Replies(x.log.accepted + [m]) == Replies(x.log.accepted) + if m.Hello? then [m.name] else []
    ensures Copies(x.log.accepted + [m]) == Copies(x.log.accepted) + if m.Broadcast? then 1 else 0
    ensures Balanced(x) && m.Broadcast? ==> Balanced(SendResponse(x, m).0)
  {
    assert (x.log.accepted + [m])[..|x.log.accepted|] == x.log.accepted;
  }

  // Processing an event takes on no broadcast copy.
  lemma HalvesKeepCopies(x: Session, e: Event)
    ensures Copies(FirstHalf(x, e).0.log.accepted) == Copies(x.log.accepted)
    ensures HasSecondHalf(e) ==> Copies(SecondHalf(x, e).0.log.accepted) == Copies(x.log.accepted)
  {
    if e.ReadDone? && !x.status.WaitToConnect? {
      SendAppends(x, Hello(x.request));
    }
  }

  // Once connected, a session stays so.
  lemma FirstHalfConnected(x: Session, e: Event)
    ensures !x.status.WaitToConnect? ==> !FirstHalf(x, e).0.status.WaitToConnect?
  {
  }

  /** The session object itself, updated in place. Its methods run under the session's mutex. */
  class GreeterSession {
    const id: nat
    var status: Status
    var queue: seq<Message>
    var request: string
    var issued: seq<nat> // the tags handed to RequestSayHello3, stream_.Read and stream_.Write so far
    ghost var log: Log

    ghost function View(): Session
      reads this
    {
      Session(status, queue, request, log)
    }

    ghost function Issues(effect: Effect): seq<nat> {
      match effect
      case Silent => []
      case StartRead => [Tagify(id, ReadDone)]
      case StartWrite => [Tagify(id, WriteDone)]
    }

    constructor (sessionId: nat)
      ensures id == sessionId && View() == NEW_SESSION && issued == [Tagify(id, Connected)]
    {
      id, status, queue, request := sessionId, WaitToConnect, [], "";
      issued := [Tagify(sessionId, Connected)];
      log := NEW_SESSION.log;
    }

    method Respond(response: Message)
      modifies this
      ensures View() == SendResponse(old(View()), response).0
      ensures issued == old(issued) + Issues(SendResponse(old(View()), response).1)
      ensures issued == old(issued) + if old(status).ReadyToWrite? then [Tagify(id, WriteDone)] else []
    {
      if status != ReadyToWrite && status != WaitWriteDone {
        return;
      }
      log := Accepted(log, response);
      if status == ReadyToWrite {
        status := WaitWriteDone;
        issued := issued + [Tagify(id, WriteDone)];
        log := Written(log, response);
      } else {
        queue := queue + [response];
      }
    }

    method ProcessEvent(event: Event)
      modifies this
      ensures var (x, first) := FirstHalf(old(View()), event);
        if HasSecondHalf(event) then
          var (y, second) := SecondHalf(x, event);
          View() == y && issued == old(issued) + Issues(first) + Issues(second)
        else
          View() == x && issued == old(issued) + Issues(first)
      // the operations started: a reply if the stream is free, and after a connect or a read always the next read
      ensures issued == old(issued) + match event {
        case Connected => [Tagify(id, ReadDone)]
        case ReadDone => (if old(status).ReadyToWrite? then [Tagify(id, WriteDone)] else []) + [Tagify(id, ReadDone)]
        case WriteDone => if old(queue) != [] then [Tagify(id, WriteDone)] else []
        case Finished => []
      }
      ensures Balanced(old(View())) && (event.Connected? <==> old(status).WaitToConnect?)
        ==> Balanced(View())
    {
      hide Balanced;
      ghost var x := View();
      if Balanced(x) && (event.Connected? <==> x.status.WaitToConnect?) {
        HalvesKeepBalance(x, event);
      }
      match event
      case Connected =>
        issued := issued + [Tagify(id, ReadDone)];
        log := log.(started := log.started + 1);
        status := ReadyToWrite;
      case ReadDone =>
        Respond(Hello(request));
        log := log.(answered := log.answered + [request]);
        issued := issued + [Tagify(id, ReadDone)];
        log := log.(started := log.started + 1);
      case WriteDone =>
        if queue != [] {
          status := WaitWriteDone;
          issued := issued + [Tagify(id, WriteDone)];
          log := Written(log, queue[0]);
          queue := queue[1..];
        } else {
          status := ReadyToWrite;
        }
      case Finished =>
    }
  }
}
