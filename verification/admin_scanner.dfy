/** adminScanner: the active object that runs the RFID scan cycle. It reads a tag,
    forwards the bin id to the tour manager, pauses while the bin is lifted and scans
    again. The tags the reader detects are an input sequence; the forwarding and the
    pause are `Output`s. */
module AdminScanner {
  import opened TourData
  import Mailbox

  /** The states, in enum order: here `Idle` is enumerator 0, not `Forget`. */
  datatype State = Idle | IsScanning | WaitLift | Forget | Dead

  datatype Event = Start | BinScan | Stop | EmptyTime

  /** A_NOP, A_SCAN, A_NSCAN, A_LIFT. */
  datatype Action = Nop | Scan | NoScan | LiftWait

  datatype Cell = Cell(dest: State, action: Action)

  /** A zero-initialised cell: since S_IDLE and A_NOP are both 0, it reads {Idle, Nop}. */
  const Unset: Cell := Cell(Idle, Nop)

  /** The transition matrix `mySm`; every pair not listed holds `Unset`. */
  function Table(s: State, e: Event): (c: Cell)
    ensures c.dest != Forget && c.dest != Dead
    ensures c.action == Nop <==> c == Unset
    ensures c.action == Scan <==> (e == Start && (s == Idle || s == IsScanning)) || (e == EmptyTime && s == WaitLift)
    ensures c.action == LiftWait <==> e == BinScan && s == IsScanning
    ensures c.action == NoScan <==> e == Stop && (s == IsScanning || s == WaitLift)
  {
    match s
    case Idle => (if e == Start then Cell(IsScanning, Scan) else Unset)
    case IsScanning =>
      (match e
       case Stop => Cell(Idle, NoScan)
       case Start => Cell(IsScanning, Scan)
       case BinScan => Cell(WaitLift, LiftWait)
       case EmptyTime => Unset)
    case WaitLift =>
      (match e
       case EmptyTime => Cell(IsScanning, Scan)
       case Stop => Cell(Idle, NoScan)
       case _ => Unset)
    case _ => Unset
  }

  /** What an action asks of the outside. */
  datatype Output =
    | ForwardIdBin(id: IdBin)   // Scanner_setIdBin and TourManager_setIdBinToTourManager
    | PauseForLift              // the 5 s sleep of waitLiftBin

  datatype AdminScanner = AdminScanner(
    state: State,
    inbox: Mailbox.Queue<Event>,
    lastId: IdBin,     // idBin
    running: bool)     // the worker thread exists and has not been cancelled

  /** Whether performing `a` in state `s` posts an event to the object's own mailbox. */
  predicate Posts(s: State, a: Action) {
    a != Nop || s == Idle
  }

  /** `performAction`, run with the pre-transition state: A_NOP posts E_START only from
      Idle; A_SCAN reads a tag, forwards it and posts E_BINSCAN; A_NSCAN posts E_STOP;
      A_LIFT posts E_EMPTYTIME and then pauses. */
  function Perform(sc: AdminScanner, a: Action, tag: IdBin): (r: (AdminScanner, seq<Output>))
    requires Posts(sc.state, a) ==> Mailbox.HasRoom(sc.inbox)
    ensures r.0.state == sc.state && r.0.running == sc.running
    ensures Posts(sc.state, a) <==> |r.0.inbox| == |sc.inbox| + 1
    ensures !Posts(sc.state, a) ==> r.0.inbox == sc.inbox
  {
    match a
    case Nop => if sc.state == Idle then (sc.(inbox := Mailbox.Send(sc.inbox, Start)), []) else (sc, [])
    case Scan => (sc.(lastId := tag, inbox := Mailbox.Send(sc.inbox, BinScan)), [ForwardIdBin(tag)])
    case NoScan => (sc.(inbox := Mailbox.Send(sc.inbox, Stop)), [])
    case LiftWait => (sc.(inbox := Mailbox.Send(sc.inbox, EmptyTime)), [PauseForLift])
  }

  /** Handling `e` needs room in the object's own mailbox whenever its action posts. */
  predicate CanHandle(sc: AdminScanner, e: Event) {
    Posts(sc.state, Table(sc.state, e).action) ==> Mailbox.HasRoom(sc.inbox)
  }

  /** `adminScanner_transitionFct`: the action is looked up and performed with the state
      as it was, and only then does the state move to the destination. */
  function Transition(sc: AdminScanner, e: Event, tag: IdBin): (r: (AdminScanner, seq<Output>))
    requires CanHandle(sc, e)
    ensures r.0.state == Table(sc.state, e).dest
    ensures r.1 == Perform(sc, Table(sc.state, e).action, tag).1
  {
    var (m, outs) := Perform(sc, Table(sc.state, e).action, tag);
    (m.(state := Table(sc.state, e).dest), outs)
  }

  /** The body of `run` for one received event: the transition is taken unless the cell's
      destination is `Forget`, which no cell has. */
  function Receive(sc: AdminScanner, e: Event, tag: IdBin): (r: (AdminScanner, seq<Output>))
    requires CanHandle(sc, e)
    ensures r.0.state == Table(sc.state, e).dest && r.0.running == sc.running
    ensures Posts(sc.state, Table(sc.state, e).action) <==> |r.0.inbox| == |sc.inbox| + 1
  {
    if Table(sc.state, e).dest != Forget then Transition(sc, e, tag) else (sc, [])
  }

  /** `run`: up to n iterations of the worker loop over the mailbox, consuming a tag each
      time A_SCAN reads one. It returns the object, the outputs and the tags left; it
      stops early when the thread is cancelled, the state is `Dead`, the mailbox is empty,
      or the next scan would wait for a tag that is never offered. */
  function Run(sc: AdminScanner, tags: seq<IdBin>, n: nat): (r: (AdminScanner, seq<Output>, seq<IdBin>))
    requires |sc.inbox| <= Mailbox.Capacity
    ensures |r.0.inbox| <= Mailbox.Capacity
    ensures r.0.running == sc.running
    decreases n
  {
    if n == 0 || !sc.running || sc.state == Dead || sc.inbox == [] then (sc, [], tags)
    else
      var e := sc.inbox[0];
      var scans := Table(sc.state, e).action == Scan;
      if scans && tags == [] then (sc, [], tags)
      else
        var tag := if scans then tags[0] else [];
        var (m, outs) := Receive(sc.(inbox := sc.inbox[1..]), e, tag);
        var (m', outs', left) := Run(m, if scans then tags[1..] else tags, n - 1);
        (m', outs + outs', left)
  }

  /** `AdminScanner_new`: a fresh mailbox and the state reset to Idle. */
  function New(sc: AdminScanner): (r: AdminScanner)
    ensures r.state == Idle && r.inbox == [] && r.running == sc.running
  {
    sc.(state := Idle, inbox := [])
  }

  /** `AdminScanner_startBinScanner`: the worker thread starts, and `run` posts E_START
      to itself (`scanBin`) before its first receive. */
  function StartBinScanner(sc: AdminScanner): (r: AdminScanner)
    requires Mailbox.HasRoom(sc.inbox)
    ensures r.running && r.inbox == sc.inbox + [Start] && r.state == sc.state
  {
    sc.(running := true, inbox := Mailbox.Send(sc.inbox, Start))
  }

  /** `AdminScanner_stopBinScanner` then `AdminScanner_free`: the thread is cancelled, the
      state set to `Forget` and the mailbox destroyed. */
  function StopAndFree(sc: AdminScanner): (r: AdminScanner)
    ensures !r.running && r.state == Forget && r.inbox == []
  {
    sc.(running := false, state := Forget, inbox := [])
  }

  // ---------------------------------------------------------------------------------
  // Properties

  /** No cell is skipped by the `!= S_FORGET` guard, and none leads to `Dead`: every
      received event performs a transition, and the loop never ends by itself. */
  lemma EveryEventTransitions(sc: AdminScanner, e: Event, tag: IdBin)
    requires CanHandle(sc, e)
    ensures Table(sc.state, e).dest != Forget && Table(sc.state, e).dest != Dead
    ensures Receive(sc, e, tag) == Transition(sc, e, tag)
  {
  }

  /** A_NOP posts E_START exactly when the state before the transition is Idle: an unset
      cell in IsScanning or WaitLift drops the object into Idle with nothing posted. */
  lemma NopPostsStartOnlyFromIdle(sc: AdminScanner, e: Event, tag: IdBin)
    requires CanHandle(sc, e) && Table(sc.state, e).action == Nop
    ensures sc.state == Idle ==> Receive(sc, e, tag) == (sc.(inbox := sc.inbox + [Start]), [])
    ensures sc.state != Idle ==> Receive(sc, e, tag) == (sc.(state := Idle), [])
  {
  }

  /** The scan cycle: Idle -E_START-> IsScanning -E_BINSCAN-> WaitLift -E_EMPTYTIME->
      IsScanning. A_SCAN forwards the tag it reads and then posts E_BINSCAN; A_LIFT posts
      E_EMPTYTIME before pausing. */
  lemma ScanCycle(sc: AdminScanner, tag: IdBin)
    requires sc.inbox == []
    ensures Table(Idle, Start) == Cell(IsScanning, Scan)
    ensures Table(IsScanning, BinScan) == Cell(WaitLift, LiftWait)
    ensures Table(WaitLift, EmptyTime) == Cell(IsScanning, Scan)
    ensures sc.state == Idle || sc.state == WaitLift ==>
              var e := if sc.state == Idle then Start else EmptyTime;
              Receive(sc, e, tag) == (sc.(state := IsScanning, lastId := tag, inbox := [BinScan]), [ForwardIdBin(tag)])
    ensures sc.state == IsScanning ==>
              Receive(sc, BinScan, tag) == (sc.(state := WaitLift, inbox := [EmptyTime]), [PauseForLift])
  {
  }

  /** One iteration of `run` on a single queued event whose action reads no tag. */
  lemma RunStep(sc: AdminScanner, e: Event, tags: seq<IdBin>, n: nat)
    requires n > 0 && sc.running && sc.state != Dead && sc.inbox == [e]
    requires Table(sc.state, e).action != Scan
    ensures var (m, outs) := Receive(sc.(inbox := []), e, []);
            var r := Run(m, tags, n - 1);
            Run(sc, tags, n).0 == r.0 && Run(sc, tags, n).1 == outs + r.1 && Run(sc, tags, n).2 == r.2
  {
    assert sc.inbox[1..] == [];
  }

  /** One iteration of `run` on a single queued event whose action reads the next tag. */
  lemma RunScanStep(sc: AdminScanner, e: Event, tags: seq<IdBin>, n: nat)
    requires n > 0 && sc.running && sc.state != Dead && sc.inbox == [e] && tags != []
    requires Table(sc.state, e).action == Scan
    ensures var (m, outs) := Receive(sc.(inbox := []), e, tags[0]);
            var r := Run(m, tags[1..], n - 1);
            Run(sc, tags, n).0 == r.0 && Run(sc, tags, n).1 == outs + r.1 && Run(sc, tags, n).2 == r.2
  {
    assert sc.inbox[1..] == [];
  }

  /** The outputs of the scan cycle for a sequence of tags: each is forwarded, then the
      lift pause follows. */
  function CycleOutputs(tags: seq<IdBin>): seq<Output> {
    if tags == [] then [] else [ForwardIdBin(tags[0]), PauseForLift] + CycleOutputs(tags[1..])
  }

  /** The cycle's outputs alternate: the k-th tag forwarded, then a pause. */
  lemma {:induction false} CycleOutputsAlternate(tags: seq<IdBin>, k: nat)
    requires k < |tags|
    ensures |CycleOutputs(tags)| == 2 * |tags|
    ensures CycleOutputs(tags)[2 * k] == ForwardIdBin(tags[k])
    ensures CycleOutputs(tags)[2 * k + 1] == PauseForLift
    decreases |tags|
  {
    if k > 0 {
      CycleOutputsAlternate(tags[1..], k - 1);
    } else if |tags| > 1 {
      CycleOutputsAlternate(tags[1..], 0);
    }
  }

  /** One lap of the cycle from WaitLift: E_EMPTYTIME scans and forwards the next tag,
      E_BINSCAN pauses for the lift, and the object waits for the next lift with that tag
      stored. */
  lemma CycleLap(sc: AdminScanner, tags: seq<IdBin>, n: nat)
    requires sc.running && sc.state == WaitLift && sc.inbox == [EmptyTime]
    requires tags != [] && n >= 2
    ensures var r := Run(sc.(lastId := tags[0]), tags[1..], n - 2);
            && Run(sc, tags, n).0 == r.0
            && Run(sc, tags, n).1 == [ForwardIdBin(tags[0]), PauseForLift] + r.1
            && Run(sc, tags, n).2 == r.2
  {
    var t := tags[0];
    var m1 := sc.(state := IsScanning, lastId := t, inbox := [BinScan]);
    var m2 := sc.(lastId := t);
    assert Receive(sc.(inbox := []), EmptyTime, t) == (m1, [ForwardIdBin(t)]);
    assert Receive(m1.(inbox := []), BinScan, []) == (m2, [PauseForLift]);
    var r := Run(m2, tags[1..], n - 2);
    RunStep(m1, BinScan, tags[1..], n - 1);
    RunScanStep(sc, EmptyTime, tags, n);
    assert Run(sc, tags, n).1 == [ForwardIdBin(t)] + ([PauseForLift] + r.1);
  }

  /** Once waiting for a lift, the running scanner forwards every offered tag in order,
      pausing after each, and is waiting for the next lift again when the tags run out. */
  lemma {:induction false} CycleForwardsEveryTag(sc: AdminScanner, tags: seq<IdBin>)
    requires sc.running && sc.state == WaitLift && sc.inbox == [EmptyTime]
    ensures Run(sc, tags, 2 * |tags|).0 == (if tags == [] then sc else sc.(lastId := tags[|tags| - 1]))
    ensures Run(sc, tags, 2 * |tags|).1 == CycleOutputs(tags)
    ensures Run(sc, tags, 2 * |tags|).2 == []
    decreases |tags|
  {
    if tags != [] {
      CycleLap(sc, tags, 2 * |tags|);
      CycleForwardsEveryTag(sc.(lastId := tags[0]), tags[1..]);
    }
  }

  /** E_STOP does not stop scanning: from IsScanning, A_NSCAN posts a second E_STOP, whose
      unset cell in Idle runs A_NOP, which posts E_START, and the next tag is scanned. */
  lemma StopRestartsScanning(sc: AdminScanner, tag: IdBin)
    requires sc.running && sc.state == IsScanning && sc.inbox == [Stop]
    ensures Run(sc, [tag], 3).0 == sc.(state := IsScanning, lastId := tag, inbox := [BinScan])
    ensures Run(sc, [tag], 3).1 == [ForwardIdBin(tag)]
    ensures Run(sc, [tag], 3).2 == []
  {
    var m1 := sc.(state := Idle, inbox := [Stop]);
    var m2 := m1.(inbox := [Start]);
    var m3 := sc.(state := IsScanning, lastId := tag, inbox := [BinScan]);
    assert Receive(sc.(inbox := []), Stop, []) == (m1, []);
    assert Receive(m1.(inbox := []), Stop, []) == (m2, []);
    assert Receive(m2.(inbox := []), Start, tag) == (m3, [ForwardIdBin(tag)]);
    assert [tag][1..] == [];
    var r3 := Run(m3, [], 0);
    assert r3 == (m3, [], []);
    RunScanStep(m2, Start, [tag], 1);
    var r2 := Run(m2, [tag], 1);
    assert r2.0 == m3 && r2.1 == [ForwardIdBin(tag)] + r3.1 && r2.2 == [];
    RunStep(m1, Stop, [tag], 2);
    var r1 := Run(m1, [tag], 2);
    assert r1.0 == m3 && r1.1 == [] + r2.1 && r1.2 == [];
    RunStep(sc, Stop, [tag], 3);
    assert Run(sc, [tag], 3).1 == [] + r1.1;
  }

  /** A stray E_EMPTYTIME while scanning hits an unset cell: the object falls into Idle
      with nothing posted, and the loop then waits on an empty mailbox. */
  lemma StrayEmptyTimeHaltsScanning(sc: AdminScanner, n: nat)
    requires sc.running && sc.state == IsScanning && sc.inbox == [EmptyTime] && n >= 1
    ensures Run(sc, [], n) == (sc.(state := Idle, inbox := []), [], [])
  {
    var m := sc.(state := Idle, inbox := []);
    assert sc.inbox[1..] == [];
    assert Receive(sc.(inbox := []), EmptyTime, []) == (m, []);
    assert Run(m, [], n - 1) == (m, [], []);
    var none: seq<Output> := [];
    assert none + none == none;
  }

  /** Started from a fresh object, the first iteration scans the first tag. */
  lemma StartScansFirstTag(sc: AdminScanner, tag: IdBin, rest: seq<IdBin>)
    ensures var m := StartBinScanner(New(sc));
            Run(m, [tag] + rest, 1) ==
              (m.(state := IsScanning, lastId := tag, inbox := [BinScan]), [ForwardIdBin(tag)], rest)
  {
    var m := StartBinScanner(New(sc));
    var m1 := m.(state := IsScanning, lastId := tag, inbox := [BinScan]);
    assert Receive(m.(inbox := []), Start, tag) == (m1, [ForwardIdBin(tag)]);
    assert ([tag] + rest)[1..] == rest;
    assert m.inbox[1..] == [];
    assert Run(m1, rest, 0) == (m1, [], rest);
    assert [ForwardIdBin(tag)] + [] == [ForwardIdBin(tag)];
  }

  /** No iteration reaches `Dead`: only cancelling the thread stops the scanner. */
  lemma {:induction false} NeverDead(sc: AdminScanner, tags: seq<IdBin>, n: nat)
    requires |sc.inbox| <= Mailbox.Capacity && sc.state != Dead
    ensures Run(sc, tags, n).0.state != Dead
    decreases n
  {
    if n > 0 && sc.running && sc.inbox != [] {
      var e := sc.inbox[0];
      var scans := Table(sc.state, e).action == Scan;
      if !(scans && tags == []) {
        var tag := if scans then tags[0] else [];
        var (m, outs) := Receive(sc.(inbox := sc.inbox[1..]), e, tag);
        NeverDead(m, if scans then tags[1..] else tags, n - 1);
      }
    }
  }
}
