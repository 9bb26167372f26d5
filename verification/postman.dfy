/** postmanBenno: the active object that owns the link to the tablet.

    A writing thread runs a four-state machine over its mailbox: it opens the link,
    writes the shared send buffer once per E_SEND_MSG, and reconnects after an error. A
    reading thread hands every message it receives to the dispatcher and reports a
    broken link once. Sockets and threads appear as `Output`s; what each `read` on the
    socket returns is an input sequence. */
module Postman {
  import opened Text
  import Mailbox
  import Dispatcher

  /** MAX_BUFFER_SIZE: the size of the send and receive buffers. */
  const MaxBufferSize: nat := 1000

  /** A buffer of exactly MAX_BUFFER_SIZE characters. */
  type Buffer = b: string | |b| == MaxBufferSize witness Nuls(MaxBufferSize)

  datatype State = Forget | Idle | Write | Death

  datatype Event = Connected | SendMsg | ErrorCom | Stop

  /** A_NOP, A_START, A_WRITE, A_NOTIFY_DISCONNECTION, A_STOP. */
  datatype Action = Nop | Start | WriteData | NotifyDisconnection | StopLink

  datatype Cell = Cell(dest: State, action: Action)

  /** A zero-initialised cell: the event is lost. */
  const Lost: Cell := Cell(Forget, Nop)

  /** The transition matrix `mySm`; every pair not listed holds `Lost`. */
  function Table(s: State, e: Event): (c: Cell)
    ensures c.action == Nop <==> c == Lost
    ensures c.dest == Write <==> (s == Idle && e == Connected) || (s == Write && e == SendMsg)
    ensures c.action == NotifyDisconnection <==> s == Write && e == ErrorCom
    ensures c.dest == Death <==> e == Stop && (s == Idle || s == Write)
  {
    match s
    case Idle =>
      (match e
       case Connected => Cell(Write, Start)
       case Stop => Cell(Death, StopLink)
       case _ => Lost)
    case Write =>
      (match e
       case SendMsg => Cell(Write, WriteData)
       case ErrorCom => Cell(Idle, NotifyDisconnection)
       case Stop => Cell(Death, StopLink)
       case _ => Lost)
    case _ => Lost
  }

  /** What an action does outside the object. */
  datatype Output =
    | OpenLink                  // actionStart: listen on RFCOMM channel 1, accept, start the reader
    | WriteFrame(bytes: Buffer) // write(socketData, sendBuffer, MAX_BUFFER_SIZE)
    | DataReceptionKo           // Speaker_requestDataReceptionSignalKo
    | CancelReader              // pthread_cancel(pthreadRead)
    | CloseSockets              // close(socketData) and close(socketListener)

  /** The writer's state, its mailbox and the static `sendBuffer` it shares with callers. */
  datatype Postman = Postman(state: State, inbox: Mailbox.Queue<Event>, sendBuffer: Buffer)

  /** The static initialisation: state Idle, the send buffer zero-filled. */
  const Initial: Postman := Postman(Idle, [], Nuls(MaxBufferSize))

  /** `PostmanBenno_new`: the mailbox is destroyed and opened afresh and the state is set
      back to Idle; the send buffer is static and keeps its contents. */
  function New(p: Postman): (r: Postman)
    ensures r.state == Idle && r.inbox == []
    ensures r.sendBuffer == p.sendBuffer
  {
    Postman(Idle, [], p.sendBuffer)
  }

  /** The actions. A_WRITE writes the whole buffer, whatever C string it holds;
      A_NOTIFY_DISCONNECTION tells the speaker, cancels the reader, closes both sockets
      and queues E_CONNECTED behind whatever is already waiting. */
  function Perform(p: Postman, a: Action): (r: (Postman, seq<Output>))
    requires a == NotifyDisconnection ==> Mailbox.HasRoom(p.inbox)
    ensures r.0.state == p.state && r.0.sendBuffer == p.sendBuffer
    ensures a == NotifyDisconnection ==> r.0.inbox == p.inbox + [Connected]
    ensures a != NotifyDisconnection ==> r.0.inbox == p.inbox
    ensures CloseSockets in r.1 <==> a == NotifyDisconnection || a == StopLink
  {
    match a
    case Nop => (p, [])
    case Start => (p, [OpenLink])
    case WriteData => (p, [WriteFrame(p.sendBuffer)])
    case NotifyDisconnection =>
      (p.(inbox := Mailbox.Send(p.inbox, Connected)), [DataReceptionKo, CancelReader, CloseSockets])
    case StopLink => (p, [CloseSockets])
  }

  /** Handling `e` needs room in the mailbox only when it runs A_NOTIFY_DISCONNECTION. */
  predicate CanHandle(p: Postman, e: Event) {
    Table(p.state, e).action == NotifyDisconnection ==> Mailbox.HasRoom(p.inbox)
  }

  /** `postmanBenno_transitionFct`: a lost event changes nothing; otherwise the action
      runs and the state moves to the destination. */
  function Transition(p: Postman, e: Event): (r: (Postman, seq<Output>))
    requires CanHandle(p, e)
    ensures Table(p.state, e).dest == Forget ==> r == (p, [])
    ensures Table(p.state, e).dest != Forget ==> r.0.state == Table(p.state, e).dest
    ensures r.0.sendBuffer == p.sendBuffer && |r.0.inbox| <= |p.inbox| + 1
  {
    var c := Table(p.state, e);
    if c.dest == Forget then (p, [])
    else
      var (m, outs) := Perform(p, c.action);
      (m.(state := c.dest), outs)
  }

  /** The body of `run` for one received event: E_STOP sets `Death` before any table
      lookup, so A_STOP never runs. */
  function Receive(p: Postman, e: Event): (r: (Postman, seq<Output>))
    requires CanHandle(p, e)
    ensures e == Stop ==> r == (p.(state := Death), [])
    ensures e != Stop ==> r == Transition(p, e)
  {
    if e == Stop then (p.(state := Death), []) else Transition(p, e)
  }

  /** `run`: up to n iterations of the writing loop; it ends in `Death`, and an empty
      mailbox blocks it. */
  function Run(p: Postman, n: nat): (r: (Postman, seq<Output>))
    requires |p.inbox| <= Mailbox.Capacity
    ensures |r.0.inbox| <= Mailbox.Capacity
    ensures n == 0 || p.state == Death || p.inbox == [] ==> r == (p, [])
    decreases n
  {
    if n == 0 || p.state == Death || p.inbox == [] then (p, [])
    else
      var (e, rest) := Mailbox.Receive(p.inbox);
      var (m, outs) := Receive(p.(inbox := rest), e);
      var (m', outs') := Run(m, n - 1);
      (m', outs + outs')
  }

  // ---------------------------------------------------------------------------------
  // The public functions, called from other threads

  /** `mqSend` from another thread. */
  function Post(p: Postman, e: Event): (r: Postman)
    requires Mailbox.HasRoom(p.inbox)
    ensures r.inbox == p.inbox + [e]
    ensures r.(inbox := p.inbox) == p
  {
    p.(inbox := Mailbox.Send(p.inbox, e))
  }

  /** `PostmanBenno_start`: queues E_CONNECTED. */
  function StartRequest(p: Postman): (r: Postman)
    requires Mailbox.HasRoom(p.inbox)
    ensures r.inbox == p.inbox + [Connected] && r.(inbox := p.inbox) == p
  {
    Post(p, Connected)
  }

  /** `PostmanBenno_stop`: queues E_STOP. */
  function StopRequest(p: Postman): (r: Postman)
    requires Mailbox.HasRoom(p.inbox)
    ensures r.inbox == p.inbox + [Stop] && r.(inbox := p.inbox) == p
  {
    Post(p, Stop)
  }

  /** `PostmanBenno_sendMsg`: the message is copied into the shared send buffer at once,
      in the caller's thread, with `strncpy(sendBuffer, data, MAX_BUFFER_SIZE)`, and
      E_SEND_MSG is queued without it. */
  function SendMessage(p: Postman, data: string): (r: Postman)
    requires Mailbox.HasRoom(p.inbox)
    ensures r.sendBuffer == StrNCopy(data, MaxBufferSize)
    ensures r.inbox == p.inbox + [SendMsg] && r.state == p.state
  {
    Post(p.(sendBuffer := StrNCopy(data, MaxBufferSize)), SendMsg)
  }

  // ---------------------------------------------------------------------------------
  // The reading thread

  /** One return of `read` on the data socket: the value returned and the bytes stored. */
  datatype ReadResult = ReadResult(ret: int, bytes: string)

  /** What the reader does with one read. */
  datatype ReaderOutput =
    | Dispatch(buffer: Buffer)  // DispatcherBenno_setMsg(receiveBuffer)
    | PostErrorCom                                // notifyDisconnection

  /** The receive buffer after a read: the bytes read, over the zero fill the `memset` of
      the previous iteration (or the static initialisation) left behind. */
  function ReceiveBuffer(bytes: string): (r: Buffer)
    ensures forall i :: 0 <= i < MaxBufferSize ==> r[i] == At(bytes, i)
  {
    if |bytes| >= MaxBufferSize then bytes[..MaxBufferSize]
    else bytes + Nuls(MaxBufferSize - |bytes|)
  }

  /** One successful read: the receive buffer is handed to the dispatcher, which sees the
      C string of the bytes read when they fit the buffer, and the first MAX_BUFFER_SIZE
      bytes otherwise. */
  function Serve(r: ReadResult): (o: ReaderOutput)
    ensures o.Dispatch?
    ensures |r.bytes| < MaxBufferSize ==> CString(o.buffer) == CString(r.bytes)
    ensures |r.bytes| >= MaxBufferSize ==> o.buffer == r.bytes[..MaxBufferSize]
  {
    if |r.bytes| < MaxBufferSize then
      CStringPadded(r.bytes, MaxBufferSize - |r.bytes|);
      Dispatch(ReceiveBuffer(r.bytes))
    else
      Dispatch(ReceiveBuffer(r.bytes))
  }

  /** The index of the first read that returns less than 1, or |results| if there is none. */
  function FirstFailure(results: seq<ReadResult>): (k: nat)
    ensures k <= |results|
    ensures forall i :: 0 <= i < k ==> results[i].ret >= 1
    ensures k < |results| ==> results[k].ret < 1
  {
    if results == [] then 0
    else if results[0].ret < 1 then 0
    else 1 + FirstFailure(results[1..])
  }

  /** `readMsg` over the results the socket returns before the thread blocks: every read of
      at least one byte goes to the dispatcher; the first read returning less than 1
      posts E_ERROR_COM once and ends the loop, so later reads are never made. */
  method ReadMsg(results: seq<ReadResult>) returns (outs: seq<ReaderOutput>)
    ensures var k := FirstFailure(results);
            && |outs| == (if k < |results| then k + 1 else k)
            && (forall i :: 0 <= i < k ==>
                  outs[i] == Serve(results[i]))
            && (k < |results| ==> outs[k] == PostErrorCom)
  {
    ghost var k := FirstFailure(results);
    var dataToReceive := true;
    var i := 0;
    outs := [];
    while dataToReceive && i < |results|
      invariant 0 <= i <= |results| && |outs| == i
      invariant dataToReceive ==> i <= k
      invariant !dataToReceive ==> k < |results| && i == k + 1 && outs[k] == PostErrorCom
      invariant forall j :: 0 <= j < i && j < k ==>
                  outs[j] == Serve(results[j])
      decreases |results| - i
    {
      var r := results[i];
      if r.ret < 1 {
        assert i == k;
        dataToReceive := false;
        outs := outs + [PostErrorCom];
      } else {
        assert i < k;
        outs := outs + [Serve(r)];
      }
      i := i + 1;
    }
  }

  // ---------------------------------------------------------------------------------
  // Properties

  /** One iteration of the loop, unfolded. */
  lemma RunStep(p: Postman, n: nat, e: Event, rest: seq<Event>)
    requires p.inbox == [e] + rest && |p.inbox| <= Mailbox.Capacity
    requires n >= 1 && p.state != Death
    ensures var s := Receive(p.(inbox := rest), e);
            Run(p, n) == (Run(s.0, n - 1).0, s.1 + Run(s.0, n - 1).1)
  {
    assert Mailbox.Receive(p.inbox) == (e, rest);
  }

  /** A cell with no entry runs no action and leaves the object as it was; E_SEND_MSG in
      Idle and E_CONNECTED in Write are two such cells. */
  lemma LostEventsChangeNothing(p: Postman, e: Event)
    requires e != Stop && Table(p.state, e) == Lost
    ensures Receive(p, e) == (p, [])
    ensures Table(Idle, SendMsg) == Lost && Table(Write, Connected) == Lost
  {
  }

  /** E_STOP ends the loop in `Death` from every live state and takes nothing from the
      mailbox behind it. */
  lemma StopEndsLoop(p: Postman, rest: seq<Event>, n: nat)
    requires p.inbox == [Stop] + rest && |p.inbox| <= Mailbox.Capacity
    requires p.state != Death && n >= 1
    ensures Run(p, n) == (p.(state := Death, inbox := rest), [])
  {
    assert Mailbox.Receive(p.inbox) == (Stop, rest);
    var m := p.(state := Death, inbox := rest);
    assert Run(m, n - 1) == (m, []);
    var none: seq<Output> := [];
    assert none + none == none;
  }

  /** Only E_STOP leads to `Death`, and it closes nothing: the sockets are closed only
      on the disconnection path, never by A_STOP. */
  lemma StopActionNeverRuns(p: Postman, e: Event)
    requires CanHandle(p, e)
    ensures Receive(p, e).0.state == Death <==> e == Stop || p.state == Death
    ensures CloseSockets in Receive(p, e).1 <==> p.state == Write && e == ErrorCom
  {
  }

  /** Idle -E_CONNECTED-> Write opens the link; Write -E_SEND_MSG-> Write writes the
      whole send buffer, MAX_BUFFER_SIZE characters, once. */
  lemma MainPath(p: Postman)
    ensures p.state == Idle ==> Receive(p, Connected) == (p.(state := Write), [OpenLink])
    ensures p.state == Write ==> Receive(p, SendMsg) == (p, [WriteFrame(p.sendBuffer)])
    ensures |p.sendBuffer| == MaxBufferSize
  {
  }

  /** Write -E_ERROR_COM-> Idle, and the reconnection request is queued behind every
      event already waiting. */
  lemma ReconnectQueuedBehind(p: Postman, rest: seq<Event>)
    requires p.state == Write && p.inbox == [ErrorCom] + rest && |p.inbox| <= Mailbox.Capacity
    ensures Run(p, 1) == (p.(state := Idle, inbox := rest + [Connected]),
                          [DataReceptionKo, CancelReader, CloseSockets])
  {
    assert Mailbox.Receive(p.inbox) == (ErrorCom, rest);
    var outs: seq<Output> := [DataReceptionKo, CancelReader, CloseSockets];
    assert outs + [] == outs;
  }

  /** A message queued before the error is reported is lost: E_SEND_MSG reaches the
      machine in Idle, and after reconnecting nothing is written. */
  lemma MessageLostAcrossReconnect(p: Postman)
    requires p.state == Write && p.inbox == [ErrorCom, SendMsg]
    ensures Run(p, 3).0 == p.(inbox := [])
    ensures Run(p, 3).1 == [DataReceptionKo, CancelReader, CloseSockets, OpenLink]
  {
    var p1 := p.(state := Idle, inbox := [SendMsg, Connected]);
    var p2 := p1.(inbox := [Connected]);
    var p3 := p.(inbox := []);
    RunStep(p, 3, ErrorCom, [SendMsg]);
    assert Receive(p.(inbox := [SendMsg]), ErrorCom).0 == p1;
    assert Receive(p.(inbox := [SendMsg]), ErrorCom).1 == [DataReceptionKo, CancelReader, CloseSockets];
    RunStep(p1, 2, SendMsg, [Connected]);
    assert Receive(p2, SendMsg).0 == p2 && Receive(p2, SendMsg).1 == [];
    RunStep(p2, 1, Connected, []);
    assert Receive(p3.(state := Idle), Connected).0 == p3;
    assert Receive(p3.(state := Idle), Connected).1 == [OpenLink];
    assert Run(p3, 0).0 == p3 && Run(p3, 0).1 == [];
  }

  /** The send buffer holds the message cut to MAX_BUFFER_SIZE characters: read back as a
      C string it is the message, or its first MAX_BUFFER_SIZE characters. */
  lemma SendMessageCopies(p: Postman, data: string)
    requires Mailbox.HasRoom(p.inbox)
    ensures var c := CString(data);
            CString(SendMessage(p, data).sendBuffer) ==
              if |c| >= MaxBufferSize then c[..MaxBufferSize] else c
  {
    StrNCopyReadBack(data, MaxBufferSize);
  }

  /** Two messages sent before the writer runs share one buffer: both writes carry the
      second message, and the first is never written. */
  lemma LatestBufferWins(p: Postman, d1: string, d2: string)
    requires p.state == Write && p.inbox == []
    ensures var b := StrNCopy(d2, MaxBufferSize);
            && Run(SendMessage(SendMessage(p, d1), d2), 2).0 == p.(sendBuffer := b)
            && Run(SendMessage(SendMessage(p, d1), d2), 2).1 == [WriteFrame(b), WriteFrame(b)]
  {
    var b := StrNCopy(d2, MaxBufferSize);
    var q := SendMessage(SendMessage(p, d1), d2);
    assert q == p.(sendBuffer := b, inbox := [SendMsg, SendMsg]);
    var q1 := p.(sendBuffer := b, inbox := [SendMsg]);
    var q2 := p.(sendBuffer := b);
    RunStep(q, 2, SendMsg, [SendMsg]);
    assert Receive(q1, SendMsg).0 == q1 && Receive(q1, SendMsg).1 == [WriteFrame(b)];
    RunStep(q1, 1, SendMsg, []);
    assert Receive(q2, SendMsg).0 == q2 && Receive(q2, SendMsg).1 == [WriteFrame(b)];
    assert Run(q2, 0).0 == q2 && Run(q2, 0).1 == [];
  }

  /** The machine never enters `Forget`: every loop iteration keeps a live state. */
  lemma {:induction false} RunStaysLive(p: Postman, n: nat)
    requires |p.inbox| <= Mailbox.Capacity && p.state != Forget
    ensures Run(p, n).0.state != Forget
    ensures Run(p, n).0.sendBuffer == p.sendBuffer
    decreases n
  {
    if n > 0 && p.state != Death && p.inbox != [] {
      var e, rest := p.inbox[0], p.inbox[1..];
      assert Mailbox.Receive(p.inbox) == (e, rest);
      var m := Receive(p.(inbox := rest), e).0;
      RunStaysLive(m, n - 1);
    }
  }

  /** Handing over the zero-filled receive buffer makes the same call as the bytes read
      alone: the fill neither changes the tag nor reaches into a payload's C string. */
  lemma ZeroFillKeepsCalls(bytes: string)
    requires |bytes| <= MaxBufferSize
    ensures Dispatcher.SetMsg(ReceiveBuffer(bytes)) == Dispatcher.SetMsg(bytes)
  {
    ZeroFillKeepsTag(bytes);
    ZeroFillKeepsPayloadText(bytes);
    Dispatcher.CallsDependOnTagAndPayloadText(ReceiveBuffer(bytes), bytes);
  }

  /** The zero fill lies beyond the four tag characters or replaces only NULs. */
  lemma ZeroFillKeepsTag(bytes: string)
    requires |bytes| <= MaxBufferSize
    ensures Dispatcher.Tag(ReceiveBuffer(bytes)) == Dispatcher.Tag(bytes)
  {
    var buf := ReceiveBuffer(bytes);
    assert At(buf, 0) == At(bytes, 0) && At(buf, 1) == At(bytes, 1);
    assert At(buf, 2) == At(bytes, 2) && At(buf, 3) == At(bytes, 3);
  }

  /** The zero fill only extends the payload after its C string. */
  lemma ZeroFillKeepsPayloadText(bytes: string)
    requires |bytes| <= MaxBufferSize
    ensures CString(Dispatcher.Payload(ReceiveBuffer(bytes))) == CString(Dispatcher.Payload(bytes))
  {
    var buf := ReceiveBuffer(bytes);
    var fill := Nuls(MaxBufferSize - |bytes|);
    assert buf == bytes + fill;
    var pb, pm := Dispatcher.Payload(buf), Dispatcher.Payload(bytes);
    if |bytes| >= Dispatcher.PayloadStart {
      assert pb == pm + fill;
      CStringPadded(pm, |fill|);
    } else {
      assert pb == "" + Nuls(|pb|);
      CStringPadded("", |pb|);
    }
  }

  /** A reader whose first read fails posts E_ERROR_COM and dispatches nothing; one whose
      results all succeed dispatches each of them in order and posts nothing. */
  method ReaderExamples(good: seq<ReadResult>, ret: int, bytes: string)
    returns (failed: seq<ReaderOutput>, served: seq<ReaderOutput>)
    requires ret < 1 && forall i :: 0 <= i < |good| ==> good[i].ret >= 1
    ensures failed == [PostErrorCom]
    ensures |served| == |good| && PostErrorCom !in served
  {
    failed := ReadMsg([ReadResult(ret, bytes)] + good);
    assert FirstFailure([ReadResult(ret, bytes)] + good) == 0;
    served := ReadMsg(good);
    assert FirstFailure(good) == |good|;
    forall i | 0 <= i < |served| ensures served[i] != PostErrorCom {
      assert served[i].Dispatch?;
    }
  }
}
