/** tourManager: the active object that drives a collection tour.

    It receives the tour data, evaluates each scanned bin against it, asks for the
    weight, has the bin emptied, accumulates one bin report per collected bin and sends
    the whole list at the end of the tour. Its collaborators (speaker, adminScanner,
    scales, proxyTourDirector) appear as the `Output`s its actions emit; the clock and the
    weight it reads are `Env` inputs. */
module TourManager {
  import opened Text
  import opened TourData
  import Mailbox
  import ClockMaker
  import Scales

  /** The states, in the order of the source's enum; `Forget` (0) marks an empty cell. */
  datatype State =
    | Forget | Idle | WaitingForBin | WaitingForWeight | IsLifting
    | RestFromIdle | RestFromWaitingForBin | RestFromWaitingForWeight | RestFromLifting
    | TourEnded | Dead

  datatype Event =
    | SetTourData | SetIdBin | AskWeight | SetWeight | TimeOut
    | AckTourData | EndTour | Rest | StopRest | Death

  /** A_NOP, A_ENDTOUR, A_REST, A_STOPREST, A_ENTERACTIVE, A_IDLETOWFB, A_SCANNING,
      A_ASKWEIGHT, A_LIFT, A_COLLECTED. */
  datatype Action =
    | Nop | End | SuspendForRest | ResumeFromRest | EnterActive
    | IdleToWaitingForBin | Scanning | RequestWeight | Lift | Collected

  /** One cell of the transition matrix: destination state and action. */
  datatype Cell = Cell(dest: State, action: Action)

  /** A zero-initialised cell: the event is lost. */
  const Lost: Cell := Cell(Forget, Nop)

  /** The transition matrix `mySm`; every pair not listed holds `Lost`. A listed cell never
      leads to `Forget` or `Dead`; E_ENDTOUR ends the tour and E_REST suspends it exactly
      from the four active states. */
  function Table(s: State, e: Event): (c: Cell)
    ensures c.dest == Forget <==> c == Lost
    ensures c.dest != Dead
    ensures c.action == End <==> e == EndTour && IsActive(s)
    ensures c.action == SuspendForRest <==> e == Rest && IsActive(s)
  {
    match (s, e)
    case (Idle, SetTourData) => Cell(WaitingForBin, IdleToWaitingForBin)
    case (WaitingForBin, SetIdBin) => Cell(WaitingForBin, Scanning)
    case (WaitingForBin, AskWeight) => Cell(WaitingForWeight, RequestWeight)
    case (WaitingForWeight, SetWeight) => Cell(IsLifting, Lift)
    case (IsLifting, TimeOut) => Cell(WaitingForBin, Collected)
    case (Idle, EndTour) => Cell(TourEnded, End)
    case (WaitingForBin, EndTour) => Cell(TourEnded, End)
    case (WaitingForWeight, EndTour) => Cell(TourEnded, End)
    case (IsLifting, EndTour) => Cell(TourEnded, End)
    case (TourEnded, AckTourData) => Cell(Idle, EnterActive)
    case (Idle, Rest) => Cell(RestFromIdle, SuspendForRest)
    case (WaitingForBin, Rest) => Cell(RestFromWaitingForBin, SuspendForRest)
    case (WaitingForWeight, Rest) => Cell(RestFromWaitingForWeight, SuspendForRest)
    case (IsLifting, Rest) => Cell(RestFromLifting, SuspendForRest)
    case (RestFromIdle, StopRest) => Cell(Idle, ResumeFromRest)
    case (RestFromWaitingForBin, StopRest) => Cell(WaitingForBin, ResumeFromRest)
    case (RestFromWaitingForWeight, StopRest) => Cell(WaitingForWeight, ResumeFromRest)
    case (RestFromLifting, StopRest) => Cell(IsLifting, ResumeFromRest)
    case _ => Lost
  }

  /** What an action asks of the other objects, in call order. */
  datatype Output =
    | SignalDataReceptionOk         // Speaker_requestDataReceptionSignalOk
    | SignalBinState(state: BinState) // Speaker_requestBinStateSignal
    | SignalRest                    // Speaker_requestRestSignal
    | SignalEndOfRest               // Speaker_requestEndOfRestSignal
    | SignalEmptyBin                // Speaker_requestToEmptyBin
    | StartScanner                  // AdminScanner_new, Scanner_initialise, AdminScanner_startBinScanner
    | StopScanner                   // AdminScanner_stopBinScanner, AdminScanner_free
    | InitScales                    // Scales_new
    | FreeScales                    // Scales_free
    | ReportBin(report: BinReport)  // ProxyTourDirector_setCurrentBinData
    | ReportTour(reports: seq<BinReport>) // ProxyTourDirector_setCurrentTourData

  /** The inputs an iteration may read: the local time and the weight the scales measure. */
  datatype Env = Env(now: ClockMaker.Tm, weight: Scales.BinWeight)

  /** The object's fields: its state, its mailbox and the module's static variables. */
  datatype TourManager = TourManager(
    state: State,
    inbox: Mailbox.Queue<Event>,
    tour: Tour,                    // myCurrentTourData (NULL is the empty tour)
    inProgress: seq<BinReport>,    // myTourDataInProgress
    currentBin: Option<BinReport>, // myCurrentBinData
    currentId: IdBin,              // myCurrentIdBin
    currentBinState: BinState,     // myCurrentBinState
    currentWeight: Scales.BinWeight)  // myCurrentWeight

  /** The statics before anything runs: state Idle, everything else zero. */
  const Initial: TourManager := TourManager(Idle, [], [], [], None, "", Accepted, 0)

  /** `TourManager_new`: a fresh (empty) mailbox and the state reset to Idle. */
  function New(tm: TourManager): (r: TourManager)
    ensures r.state == Idle && r.inbox == []
    ensures r.tour == tm.tour && r.inProgress == tm.inProgress
  {
    tm.(state := Idle, inbox := [])
  }

  /** The actions of `actionsTab`, run on the object's fields. Only A_ASKWEIGHT posts to
      the object's own mailbox (`Scales_askWeight` calls `TourManager_setWeight`), no
      action moves the state, and each field is written by the actions named below only. */
  function Perform(tm: TourManager, a: Action, env: Env): (r: (TourManager, seq<Output>))
    requires a == RequestWeight ==> Mailbox.HasRoom(tm.inbox)
    ensures r.0.state == tm.state && r.0.currentId == tm.currentId
    ensures r.0.inbox == if a == RequestWeight then tm.inbox + [SetWeight] else tm.inbox
    ensures r.0.tour == if a == EnterActive then [] else tm.tour
    ensures a != IdleToWaitingForBin && a != Collected ==> r.0.inProgress == tm.inProgress
    ensures a != Scanning ==> r.0.currentBinState == tm.currentBinState
    ensures a != RequestWeight ==> r.0.currentWeight == tm.currentWeight
    ensures a != Collected ==> r.0.currentBin == tm.currentBin
  {
    match a
    case Nop => (tm, [])
    case End => (tm, [ReportTour(tm.inProgress), StopScanner, FreeScales])
    case SuspendForRest => (tm, [SignalRest, StopScanner])
    case ResumeFromRest => (tm, [SignalEndOfRest, StartScanner])
    case EnterActive => (tm.(tour := []), [])
    case IdleToWaitingForBin => (tm.(inProgress := []), [SignalDataReceptionOk, StartScanner, InitScales])
    case Scanning =>
      var bs := CheckIdBin(tm.tour, tm.currentId);
      (tm.(currentBinState := bs), [SignalBinState(bs)])
    case RequestWeight =>
      (tm.(currentWeight := env.weight, inbox := Mailbox.Send(tm.inbox, SetWeight)), [])
    case Lift => (tm, [SignalEmptyBin])
    case Collected =>
      var report := UpdateBinData(tm.tour, tm.currentId, ClockMaker.Format(env.now), tm.currentWeight);
      (tm.(currentBin := Some(report), inProgress := UpdateTourData(tm.inProgress, report)),
       [ReportBin(report)])
  }

  /** The one case in which handling an event needs room in the object's own mailbox. */
  predicate CanHandle(tm: TourManager, e: Event) {
    Table(tm.state, e).action == RequestWeight ==> Mailbox.HasRoom(tm.inbox)
  }

  /** `tourManager_transitionFct`: a cell with destination `Forget` loses the event (no
      action, state unchanged); any other cell runs its action, then moves to its
      destination. */
  function Transition(tm: TourManager, e: Event, env: Env): (r: (TourManager, seq<Output>))
    requires CanHandle(tm, e)
    ensures Table(tm.state, e).dest == Forget ==> r == (tm, [])
    ensures Table(tm.state, e).dest != Forget ==> r.0.state == Table(tm.state, e).dest
  {
    var c := Table(tm.state, e);
    if c.dest != Forget then
      var (m, outs) := Perform(tm, c.action, env);
      (m.(state := c.dest), outs)
    else
      (tm, [])
  }

  /** The body of `run` for one received event: E_DEATH sets `Forget` and frees the
      mailbox (`TourManager_free` closes and unlinks the queue, so whatever was still
      queued is gone) before any table lookup; every other event goes through the table. */
  function Receive(tm: TourManager, e: Event, env: Env): (r: (TourManager, seq<Output>))
    requires CanHandle(tm, e)
    ensures e == Death ==> r == (tm.(state := Forget, inbox := []), [])
    ensures e != Death ==> r == Transition(tm, e, env)
  {
    if e == Death then (tm.(state := Forget, inbox := []), []) else Transition(tm, e, env)
  }

  /** `run`: up to |envs| iterations of the worker loop, each taking the oldest message
      (and reading the next input). The loop ends once the state is `Forget`; an empty
      mailbox blocks it, which the model shows by returning. */
  function Run(tm: TourManager, envs: seq<Env>): (r: (TourManager, seq<Output>))
    requires |tm.inbox| <= Mailbox.Capacity
    ensures |r.0.inbox| <= Mailbox.Capacity
    ensures tm.state == Forget || tm.inbox == [] || envs == [] ==> r == (tm, [])
    ensures ReportsFit(tm) ==> ReportsFit(r.0)
    decreases |envs|
  {
    if tm.state == Forget || tm.inbox == [] || envs == [] then (tm, [])
    else
      var (e, rest) := Mailbox.Receive(tm.inbox);
      ReceiveKeepsReportsFit(tm.(inbox := rest), e, envs[0]);
      var (m, outs) := Receive(tm.(inbox := rest), e, envs[0]);
      var (m', outs') := Run(m, envs[1..]);
      (m', outs + outs')
  }

  /** Every report in the in-progress list carries a weight text of at most three digits,
      so the `sprintf` into the 4-byte `weightToChar` buffer stays within it. */
  predicate ReportsFit(tm: TourManager) {
    forall k :: 0 <= k < |tm.inProgress| ==>
      |tm.inProgress[k].weight| <= 3 && AllDigits(tm.inProgress[k].weight)
  }

  /** One received event keeps every recorded weight text within three digits: the only
      new report is built from the stored weight, which the scales bound to 0..500. */
  lemma ReceiveKeepsReportsFit(tm: TourManager, e: Event, env: Env)
    requires CanHandle(tm, e)
    ensures ReportsFit(tm) ==> ReportsFit(Receive(tm, e, env).0)
  {
    var c := Table(tm.state, e);
    if ReportsFit(tm) && e != Death && c.dest != Forget && c.action == Collected {
      WeightTextFits(tm.currentWeight);
      var report := UpdateBinData(tm.tour, tm.currentId, ClockMaker.Format(env.now), tm.currentWeight);
      assert Receive(tm, e, env).0.inProgress == tm.inProgress + [report];
    }
  }

  /** `mqSend` from another thread: the event joins the back of the mailbox. */
  function Post(tm: TourManager, e: Event): (r: TourManager)
    requires Mailbox.HasRoom(tm.inbox)
    ensures r.inbox == tm.inbox + [e]
    ensures r.(inbox := tm.inbox) == tm
  {
    tm.(inbox := Mailbox.Send(tm.inbox, e))
  }

  /** `TourManager_setInitialTourData`: the tour is stored at once, in the caller's
      thread, and E_SET_TOURDATA is queued. */
  function SetInitialTourData(tm: TourManager, tour: Tour): (r: TourManager)
    requires Mailbox.HasRoom(tm.inbox)
    ensures r.tour == tour && r.inbox == tm.inbox + [SetTourData]
    ensures r.state == tm.state && r.inProgress == tm.inProgress
  {
    Post(tm.(tour := tour), SetTourData)
  }

  /** `TourManager_setIdBinToTourManager`: the id is stored at once and E_SET_IDBIN is
      queued; the id copied into the message is never read back. */
  function SetIdBinToTourManager(tm: TourManager, id: IdBin): (r: TourManager)
    requires Mailbox.HasRoom(tm.inbox)
    ensures r.currentId == id && r.inbox == tm.inbox + [SetIdBin]
    ensures r.state == tm.state && r.tour == tm.tour
  {
    Post(tm.(currentId := id), SetIdBin)
  }

  /** `TourManager_setWeight`: the weight is stored at once and E_SET_WEIGHT is queued. */
  function SetWeightToTourManager(tm: TourManager, weight: Scales.BinWeight): (r: TourManager)
    requires Mailbox.HasRoom(tm.inbox)
    ensures r.currentWeight == weight && r.inbox == tm.inbox + [SetWeight]
    ensures r.state == tm.state
  {
    Post(tm.(currentWeight := weight), SetWeight)
  }

  /** `Scales_askWeight`, the routine in the A_ASKWEIGHT slot: `getWeight` polls the
      samples, then `TourManager_setWeight` stores the weight and queues E_SET_WEIGHT.
      With no press among the samples the source keeps polling; the model returns with
      nothing changed. */
  method ScalesAskWeight(tm: TourManager, pins: Scales.Pins, samples: seq<Scales.Sample>)
    returns (m: TourManager, reading: Option<Scales.Reading>)
    requires Mailbox.HasRoom(tm.inbox)
    ensures reading.None? <==> forall j :: 0 <= j < |samples| ==> !Scales.IsPress(pins, samples, j)
    ensures reading.None? ==> m == tm
    ensures reading.Some? ==>
              && m.currentWeight == reading.value.weight
              && 0 < reading.value.used <= |samples|
              && m.currentWeight == Scales.Min(Scales.CountTicks(pins, samples, reading.value.used), Scales.MaxBinWeight)
              && m.inbox == tm.inbox + [SetWeight]
              && m.(inbox := tm.inbox, currentWeight := tm.currentWeight) == tm
  {
    reading := Scales.GetWeight(pins, samples);
    if reading.Some? {
      m := SetWeightToTourManager(tm, reading.value.weight);
    } else {
      m := tm;
    }
  }

  /** The A_ASKWEIGHT action of the model is `Scales_askWeight` with the reading taken as
      the input's weight: it stores that weight, queues E_SET_WEIGHT and emits nothing. */
  lemma RequestWeightIsAskWeight(tm: TourManager, env: Env)
    requires Mailbox.HasRoom(tm.inbox)
    ensures Perform(tm, RequestWeight, env).0 == SetWeightToTourManager(tm, env.weight)
    ensures Perform(tm, RequestWeight, env).1 == []
  {
  }

  // ---------------------------------------------------------------------------------
  // Properties of the table and the loop

  /** No cell has destination `Dead`: the state is only ever left by E_DEATH. */
  lemma NoCellTargetsDead(s: State, e: Event)
    ensures Table(s, e).dest != Dead
  {
  }

  /** E_DEATH at the head of the mailbox ends the loop: the state becomes `Forget`, no
      action runs, and the messages behind it are discarded with the queue. */
  lemma DeathEndsLoop(tm: TourManager, rest: seq<Event>, envs: seq<Env>)
    requires tm.inbox == [Death] + rest && |tm.inbox| <= Mailbox.Capacity
    requires tm.state != Forget && |envs| >= 1
    ensures Run(tm, envs) == (tm.(state := Forget, inbox := []), [])
  {
    assert Mailbox.Receive(tm.inbox) == (Death, rest);
    var m := tm.(state := Forget, inbox := []);
    assert Receive(tm.(inbox := rest), Death, envs[0]) == (m, []);
    assert Run(m, envs[1..]) == (m, []);
    var none: seq<Output> := [];
    assert none + none == none;
  }

  /** The tour's main path: Idle -SetTourData-> WaitingForBin -SetIdBin-> WaitingForBin
      -AskWeight-> WaitingForWeight -SetWeight-> IsLifting -TimeOut-> WaitingForBin. */
  lemma MainPath()
    ensures Table(Idle, SetTourData) == Cell(WaitingForBin, IdleToWaitingForBin)
    ensures Table(WaitingForBin, SetIdBin) == Cell(WaitingForBin, Scanning)
    ensures Table(WaitingForBin, AskWeight) == Cell(WaitingForWeight, RequestWeight)
    ensures Table(WaitingForWeight, SetWeight) == Cell(IsLifting, Lift)
    ensures Table(IsLifting, TimeOut) == Cell(WaitingForBin, Collected)
  {
  }

  /** The four active states. */
  predicate IsActive(s: State) {
    s == Idle || s == WaitingForBin || s == WaitingForWeight || s == IsLifting
  }

  /** E_ENDTOUR moves exactly the four active states to `TourEnded`; a repeated E_ENDTOUR
      there is lost. `TourEnded` is left only by E_ACK_TOURDATA, which goes to Idle and
      clears the current tour data. */
  lemma EndOfTourHandshake(s: State, e: Event, tm: TourManager, env: Env)
    ensures Table(s, EndTour).dest == TourEnded <==> IsActive(s)
    ensures IsActive(s) ==> Table(s, EndTour).action == End
    ensures Table(TourEnded, e).dest != Forget <==> e == AckTourData
    ensures tm.state == TourEnded ==>
              Transition(tm, AckTourData, env) == (tm.(state := Idle, tour := []), [])
  {
  }

  /** Ending the tour reports the whole in-progress list once, then stops the scanner
      and releases the scales. */
  lemma EndTourReportsList(tm: TourManager, env: Env)
    requires IsActive(tm.state)
    ensures Transition(tm, EndTour, env) ==
              (tm.(state := TourEnded), [ReportTour(tm.inProgress), StopScanner, FreeScales])
  {
  }

  /** The rest state an active state moves to on E_REST. */
  function RestOf(s: State): State
    requires IsActive(s)
  {
    match s
    case Idle => RestFromIdle
    case WaitingForBin => RestFromWaitingForBin
    case WaitingForWeight => RestFromWaitingForWeight
    case IsLifting => RestFromLifting
  }

  /** Each active state enters its own rest state on E_REST and that rest state returns on
      E_STOPREST to exactly the state it was entered from; nothing else leaves a rest state. */
  lemma RestReturnsToOrigin(s: State, e: Event)
    ensures Table(s, Rest).dest != Forget <==> IsActive(s)
    ensures IsActive(s) ==> Table(s, Rest) == Cell(RestOf(s), SuspendForRest)
    ensures IsActive(s) ==> Table(RestOf(s), StopRest) == Cell(s, ResumeFromRest)
    ensures IsActive(s) && e != StopRest ==> Table(RestOf(s), e) == Lost
  {
  }

  /** How one event changes the in-progress list: entering WaitingForBin from Idle resets
      it to empty, A_COLLECTED appends exactly the report it sends (and keeps the earlier
      records), and every other event leaves it alone. */
  lemma InProgressEvolution(tm: TourManager, e: Event, env: Env)
    requires CanHandle(tm, e)
    ensures var (m, outs) := Receive(tm, e, env);
            if tm.state == Idle && e == SetTourData then m.inProgress == []
            else if tm.state == IsLifting && e == TimeOut then
              && |m.inProgress| == |tm.inProgress| + 1
              && m.inProgress[..|tm.inProgress|] == tm.inProgress
              && outs == [ReportBin(m.inProgress[|tm.inProgress|])]
              && m.inProgress[|tm.inProgress|] ==
                   UpdateBinData(tm.tour, tm.currentId, ClockMaker.Format(env.now), tm.currentWeight)
            else m.inProgress == tm.inProgress
  {
    if tm.state == IsLifting && e == TimeOut {
      var (m, outs) := Receive(tm, e, env);
      assert m.inProgress[..|tm.inProgress|] == tm.inProgress;
    }
  }

  /** The bin id stored by the sender is read when the event is handled, not when it is
      sent: two ids scanned before the first E_SET_IDBIN is handled are both evaluated
      as the second one. */
  lemma LatestIdWins(tm: TourManager, id1: IdBin, id2: IdBin, env1: Env, env2: Env)
    requires tm.state == WaitingForBin && tm.inbox == []
    ensures var m := SetIdBinToTourManager(SetIdBinToTourManager(tm, id1), id2);
            var (m', outs) := Run(m, [env1, env2]);
            outs == [SignalBinState(CheckIdBin(tm.tour, id2)), SignalBinState(CheckIdBin(tm.tour, id2))]
  {
    var m := SetIdBinToTourManager(SetIdBinToTourManager(tm, id1), id2);
    assert m.inbox == [SetIdBin, SetIdBin];
    var (m1, o1) := Receive(m.(inbox := [SetIdBin]), SetIdBin, env1);
    assert o1 == [SignalBinState(CheckIdBin(tm.tour, id2))];
    assert m1.inbox == [SetIdBin] && m1.currentId == id2 && m1.state == WaitingForBin;
    var (m2, o2) := Receive(m1.(inbox := []), SetIdBin, env2);
    assert o2 == [SignalBinState(CheckIdBin(tm.tour, id2))];
    assert Run(m2, []) == (m2, []);
  }

  /** The tour data is replaced by the sender even when E_SET_TOURDATA is then lost: a
      second tour sent mid-tour does not restart the tour but is used for every later
      evaluation. */
  lemma TourReplacedWhenEventLost(tm: TourManager, tour: Tour, env: Env)
    requires tm.state == WaitingForBin && tm.inbox == []
    ensures var (m, outs) := Run(SetInitialTourData(tm, tour), [env]);
            m.state == WaitingForBin && m.tour == tour && m.inProgress == tm.inProgress && outs == []
  {
    var m0 := SetInitialTourData(tm, tour);
    assert Mailbox.Receive(m0.inbox) == (SetTourData, []);
  }

  /** One message in the mailbox and one input: the loop handles exactly that message. */
  lemma RunOne(tm: TourManager, e: Event, env: Env)
    requires tm.inbox == [e] && tm.state != Forget && CanHandle(tm.(inbox := []), e)
    ensures var r := Receive(tm.(inbox := []), e, env);
            r.0.inbox == [] ==> Run(tm, [env]) == r
  {
    assert Mailbox.Receive(tm.inbox) == (e, []);
    var r := Receive(tm.(inbox := []), e, env);
    assert [env][1..] == [];
    if r.0.inbox == [] {
      assert Run(r.0, []) == (r.0, []);
      assert r.1 + [] == r.1;
    }
  }

  /** An event that a non-empty cell accepts runs that cell's action and moves to its
      destination. */
  lemma CellRuns(tm: TourManager, e: Event, c: Cell, env: Env)
    requires e != Death && Table(tm.state, e) == c && c.dest != Forget && CanHandle(tm, e)
    ensures Receive(tm, e, env).0 == Perform(tm, c.action, env).0.(state := c.dest)
    ensures Receive(tm, e, env).1 == Perform(tm, c.action, env).1
  {
  }

  /** E_SET_TOURDATA in Idle starts the tour with an empty in-progress list. */
  lemma StartTourStep(tour: Tour, env: Env)
    ensures Run(SetInitialTourData(Initial, tour), [env]).0 == Initial.(state := WaitingForBin, tour := tour)
    ensures Run(SetInitialTourData(Initial, tour), [env]).1 == [SignalDataReceptionOk, StartScanner, InitScales]
  {
    RunOne(SetInitialTourData(Initial, tour), SetTourData, env);
  }

  /** E_SET_IDBIN in WaitingForBin evaluates the stored id against the tour. */
  lemma ScanStep(tm: TourManager, id: IdBin, env: Env)
    requires tm.state == WaitingForBin && tm.inbox == []
    ensures Run(SetIdBinToTourManager(tm, id), [env]).0 ==
              tm.(currentId := id, currentBinState := CheckIdBin(tm.tour, id))
    ensures Run(SetIdBinToTourManager(tm, id), [env]).1 == [SignalBinState(CheckIdBin(tm.tour, id))]
  {
    RunOne(SetIdBinToTourManager(tm, id), SetIdBin, env);
  }

  /** E_ASKWEIGHT in WaitingForBin reads the scales, which posts E_SET_WEIGHT back; the
      next iteration handles it and asks the speaker to have the bin emptied. */
  lemma WeighStep(tm: TourManager, env1: Env, env2: Env)
    requires tm.state == WaitingForBin && tm.inbox == []
    ensures Run(Post(tm, AskWeight), [env1, env2]).0 == tm.(state := IsLifting, currentWeight := env1.weight)
    ensures Run(Post(tm, AskWeight), [env1, env2]).1 == [SignalEmptyBin]
  {
    var m0 := Post(tm, AskWeight);
    var ma := tm.(state := WaitingForWeight, currentWeight := env1.weight, inbox := [SetWeight]);
    AskWeightCell(tm, env1);
    LiftCell(ma, env2);
    assert [env1, env2][1..] == [env2];
    RunHead(m0, AskWeight, [env1, env2]);
  }

  /** A_ASKWEIGHT stores the weight the scales read and queues E_SET_WEIGHT. */
  lemma AskWeightCell(tm: TourManager, env: Env)
    requires tm.state == WaitingForBin && tm.inbox == []
    ensures Receive(tm, AskWeight, env).0 ==
              tm.(state := WaitingForWeight, currentWeight := env.weight, inbox := [SetWeight])
    ensures Receive(tm, AskWeight, env).1 == []
  {
    CellRuns(tm, AskWeight, Cell(WaitingForWeight, RequestWeight), env);
  }

  /** E_SET_WEIGHT, alone in the mailbox of WaitingForWeight, has the bin emptied. */
  lemma LiftCell(tm: TourManager, env: Env)
    requires tm.state == WaitingForWeight && tm.inbox == [SetWeight]
    ensures Run(tm, [env]).0 == tm.(state := IsLifting, inbox := [])
    ensures Run(tm, [env]).1 == [SignalEmptyBin]
  {
    CellRuns(tm.(inbox := []), SetWeight, Cell(IsLifting, Lift), env);
    RunOne(tm, SetWeight, env);
  }

  /** The first iteration of the loop, when one can run: the oldest message is handled
      with the first input and the loop goes on with the rest. */
  lemma RunHead(tm: TourManager, e: Event, envs: seq<Env>)
    requires |tm.inbox| <= Mailbox.Capacity && tm.inbox != [] && tm.inbox[0] == e
    requires tm.state != Forget && envs != [] && CanHandle(tm.(inbox := tm.inbox[1..]), e)
    ensures var r := Receive(tm.(inbox := tm.inbox[1..]), e, envs[0]);
            && Run(tm, envs).0 == Run(r.0, envs[1..]).0
            && Run(tm, envs).1 == r.1 + Run(r.0, envs[1..]).1
  {
    assert Mailbox.Receive(tm.inbox) == (e, tm.inbox[1..]);
  }

  /** E_TIME_OUT in IsLifting records the bin and returns to WaitingForBin. */
  lemma CollectCell(tm: TourManager, env: Env)
    requires tm.state == IsLifting && tm.inbox == []
    ensures var report := UpdateBinData(tm.tour, tm.currentId, ClockMaker.Format(env.now), tm.currentWeight);
            && Receive(tm, TimeOut, env).0 ==
                 tm.(state := WaitingForBin, currentBin := Some(report), inProgress := tm.inProgress + [report])
            && Receive(tm, TimeOut, env).1 == [ReportBin(report)]
  {
    CellRuns(tm, TimeOut, Cell(WaitingForBin, Collected), env);
  }

  /** The same, with E_TIME_OUT posted to the empty mailbox and the loop run once. */
  lemma CollectStep(tm: TourManager, env: Env)
    requires tm.state == IsLifting && tm.inbox == []
    ensures var report := UpdateBinData(tm.tour, tm.currentId, ClockMaker.Format(env.now), tm.currentWeight);
            && Run(Post(tm, TimeOut), [env]).0 ==
                 tm.(state := WaitingForBin, currentBin := Some(report), inProgress := tm.inProgress + [report])
            && Run(Post(tm, TimeOut), [env]).1 == [ReportBin(report)]
  {
    var m := Post(tm, TimeOut);
    CollectCell(tm, env);
    assert m.(inbox := []) == tm;
    RunOne(m, TimeOut, env);
  }

  /** The first half of a bin cycle: the tour arrives in Idle and one bin id is scanned. */
  function StartAndScan(tour: Tour, id: IdBin, env: Env): (r: (TourManager, seq<Output>))
    ensures r.0 == Initial.(state := WaitingForBin, tour := tour, currentId := id,
                            currentBinState := CheckIdBin(tour, id))
    ensures r.1 == [SignalDataReceptionOk, StartScanner, InitScales, SignalBinState(CheckIdBin(tour, id))]
  {
    StartTourStep(tour, env);
    var r2 := Run(SetInitialTourData(Initial, tour), [env]);
    ScanStep(r2.0, id, env);
    var r3 := Run(SetIdBinToTourManager(r2.0, id), [env]);
    (r3.0, r2.1 + r3.1)
  }

  /** The second half of a bin cycle: the weight is asked for, the bin lifted and its
      emptying times out, which records one report read from the tour, the clock and the
      scales. */
  function WeighAndCollect(tm: TourManager, env: Env): (r: (TourManager, seq<Output>))
    requires tm.state == WaitingForBin && tm.inbox == []
    ensures var report := UpdateBinData(tm.tour, tm.currentId, ClockMaker.Format(env.now), env.weight);
            && r.0 == tm.(currentWeight := env.weight, currentBin := Some(report),
                          inProgress := tm.inProgress + [report])
            && r.1 == [SignalEmptyBin, ReportBin(report)]
  {
    WeighStep(tm, env, env);
    var r4 := Run(Post(tm, AskWeight), [env, env]);
    var m4 := tm.(state := IsLifting, currentWeight := env.weight);
    assert r4.0 == m4;
    CollectStep(m4, env);
    var r5 := Run(Post(m4, TimeOut), [env]);
    (r5.0, r4.1 + r5.1)
  }

  /** A whole bin cycle from the initial object: the tour arrives, one bin id is scanned,
      its weight is asked for and its emptying times out. The object ends in
      WaitingForBin with the bin's report as its only in-progress record. */
  function CollectOneBin(tour: Tour, id: IdBin, env: Env): (r: (TourManager, seq<Output>))
    ensures r.0.state == WaitingForBin && r.0.inbox == [] && r.0.tour == tour
    ensures r.0.inProgress == [UpdateBinData(tour, id, ClockMaker.Format(env.now), env.weight)]
  {
    var r3 := StartAndScan(tour, id, env);
    var r5 := WeighAndCollect(r3.0, env);
    (r5.0, r3.1 + r5.1)
  }

  /** The outputs of a bin cycle, in order: the reception signal with scanner and scales
      start-up, the bin's state as the tour gives it, the request to empty it, and one bin
      report. */
  lemma CollectOneBinOutputs(tour: Tour, id: IdBin, env: Env)
    ensures var report := UpdateBinData(tour, id, ClockMaker.Format(env.now), env.weight);
            CollectOneBin(tour, id, env).1 ==
              [SignalDataReceptionOk, StartScanner, InitScales,
               SignalBinState(CheckIdBin(tour, id)), SignalEmptyBin, ReportBin(report)]
  {
    var r3 := StartAndScan(tour, id, env);
    var r5 := WeighAndCollect(r3.0, env);
    Concat42(r3.1, r5.1);
  }

  /** Four outputs followed by two are the six in order. */
  lemma Concat42(a: seq<Output>, b: seq<Output>)
    requires |a| == 4 && |b| == 2
    ensures a + b == [a[0], a[1], a[2], a[3], b[0], b[1]]
  {
  }

  /** The cycle above for a tour whose one record lists the scanned bin as accepted: the
      bin is signalled ACCEPTED and its report carries the id and the printed weight. */
  lemma AcceptedBinCycle(id: IdBin, pos: Position, env: Env)
    ensures var tour := [BinRecord(id, pos, AcceptedText)];
            var report := UpdateBinData(tour, id, ClockMaker.Format(env.now), env.weight);
            && report.idBin == id && report.weight == WeightText(env.weight)
            && CollectOneBin(tour, id, env).1 ==
                 [SignalDataReceptionOk, StartScanner, InitScales,
                  SignalBinState(Accepted), SignalEmptyBin, ReportBin(report)]
            && CollectOneBin(tour, id, env).0.inProgress == [report]
  {
    SingleRecordTour(BinRecord(id, pos, AcceptedText), id);
    CollectOneBinOutputs([BinRecord(id, pos, AcceptedText)], id, env);
  }
}
