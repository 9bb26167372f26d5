/** speaker: the operator-feedback active object. It drives the LEDs, evaluates the bin
    state the tour manager signals, and holds the lift inhibitor that decides whether the
    lifting button may start a lift. LEDs, watchdog, buttons and the tour manager appear as
    the `Output`s its actions emit. */
module Speaker {
  import opened Text
  import opened TourData
  import Mailbox

  datatype State =
    | Forget | Start | Connected | WaitingForSignal | BinEval
    | BinRefused | BinUnknown | BinAccepted | BinWeighing | BinEmptying
    | RestFromStart | RestFromConnected | RestFromWaitingForSignal | RestFromBinEval
    | RestFromRefused | RestFromUnknown | RestFromAccepted | RestFromWeighing | RestFromEmptying

  datatype Event =
    | StopBenno | ConnectionSignalOk | DataReceptionOk | BinStateRequest
    | EvalRefused | EvalAccepted | EvalUnknown | EmptyBinRequest
    | ForceLift | Lift | EmptyTimeElapsed | EndOfRestRequest | RestRequest

  /** The `Action` enum, in declaration order (`Ordinal` gives the enum value). */
  datatype Action =
    | Nop | ExitActive | EnterActive | StartToConnected | ConToWfs | WfsToBinEval
    | BinEvalToRefused | BinEvalToAccepted | BinEvalToUnknown
    | RefusedToAccepted | UnknownToAccepted | AcceptedToWeighing | WeighingToEmptying
    | EmptyingToWfs
    | RestToStart | RestToConnected | RestToWfs | RestToBinEval | RestToRefused
    | RestToAccepted | RestToUnknown | RestToWeighing | RestToEmptying
    | StartToRest | ConnectedToRest | WfsToRest | BinEvalToRest | RefusedToRest
    | UnknownToRest | AcceptedToRest | WeighingToRest | EmptyingToRest

  /** The action functions that exist in the source; there is none for "waiting for
      signal to rest". */
  datatype Routine =
    | ActionNop | ActionExit | ActionEnterActive | ActionStartToConnected | ActionConToWfs
    | ActionWfsToBinEval | ActionBinEvalRefused | ActionBinEvalAccepted | ActionBinEvalUnknown
    | ActionBinRefusedToBinAccepted | ActionBinUnknownToBinAccepted
    | ActionBinAcceptedToBinWeighing | ActionBinWeighingToBinEmptying | ActionBinEmptyingToWfs
    | ActionRestToStartActive | ActionRestToConnected | ActionRestToWfs | ActionRestToBinEval
    | ActionRestToBinRefused | ActionRestToBinAccepted | ActionRestToBinUnknown
    | ActionRestToBinWeighing | ActionRestToBinEmptying
    | ActionStartToRest | ActionConnectedToRest | ActionBinEvalToRest | ActionBinRefusedToRest
    | ActionBinUnknownToRest | ActionBinAcceptedToRest | ActionBinWeighingToRest
    | ActionBinEmptyingToRest

  /** The enum value of an action (0 .. 31). */
  function Ordinal(a: Action): nat {
    match a
    case Nop => 0 case ExitActive => 1 case EnterActive => 2 case StartToConnected => 3
    case ConToWfs => 4 case WfsToBinEval => 5 case BinEvalToRefused => 6
    case BinEvalToAccepted => 7 case BinEvalToUnknown => 8 case RefusedToAccepted => 9
    case UnknownToAccepted => 10 case AcceptedToWeighing => 11 case WeighingToEmptying => 12
    case EmptyingToWfs => 13 case RestToStart => 14 case RestToConnected => 15
    case RestToWfs => 16 case RestToBinEval => 17 case RestToRefused => 18
    case RestToAccepted => 19 case RestToUnknown => 20 case RestToWeighing => 21
    case RestToEmptying => 22 case StartToRest => 23 case ConnectedToRest => 24
    case WfsToRest => 25 case BinEvalToRest => 26 case RefusedToRest => 27
    case UnknownToRest => 28 case AcceptedToRest => 29 case WeighingToRest => 30
    case EmptyingToRest => 31
  }

  /** `actionsTab`: 31 initialisers for a table of 32 slots. */
  const ActionsTab: seq<Routine> := [
    ActionNop, ActionExit,
    ActionEnterActive, ActionStartToConnected, ActionConToWfs,
    ActionWfsToBinEval, ActionBinEvalRefused, ActionBinEvalAccepted, ActionBinEvalUnknown,
    ActionBinRefusedToBinAccepted, ActionBinUnknownToBinAccepted, ActionBinAcceptedToBinWeighing,
    ActionBinWeighingToBinEmptying, ActionBinEmptyingToWfs, ActionRestToStartActive,
    ActionRestToConnected, ActionRestToWfs, ActionRestToBinEval,
    ActionRestToBinRefused, ActionRestToBinAccepted, ActionRestToBinUnknown,
    ActionRestToBinWeighing, ActionRestToBinEmptying,
    ActionStartToRest, ActionConnectedToRest, ActionBinEvalToRest,
    ActionBinRefusedToRest, ActionBinUnknownToRest, ActionBinAcceptedToRest,
    ActionBinWeighingToRest, ActionBinEmptyingToRest]

  /** The routine in slot `Ordinal(a)` of `actionsTab`; `None` is the unfilled (NULL)
      slot. `SlotIsTableEntry` shows this is the indexing of `ActionsTab`. */
  function Slot(a: Action): (r: Option<Routine>)
    ensures r.None? <==> a == EmptyingToRest
  {
    match a
    case Nop => Some(ActionNop)
    case ExitActive => Some(ActionExit)
    case EnterActive => Some(ActionEnterActive)
    case StartToConnected => Some(ActionStartToConnected)
    case ConToWfs => Some(ActionConToWfs)
    case WfsToBinEval => Some(ActionWfsToBinEval)
    case BinEvalToRefused => Some(ActionBinEvalRefused)
    case BinEvalToAccepted => Some(ActionBinEvalAccepted)
    case BinEvalToUnknown => Some(ActionBinEvalUnknown)
    case RefusedToAccepted => Some(ActionBinRefusedToBinAccepted)
    case UnknownToAccepted => Some(ActionBinUnknownToBinAccepted)
    case AcceptedToWeighing => Some(ActionBinAcceptedToBinWeighing)
    case WeighingToEmptying => Some(ActionBinWeighingToBinEmptying)
    case EmptyingToWfs => Some(ActionBinEmptyingToWfs)
    case RestToStart => Some(ActionRestToStartActive)
    case RestToConnected => Some(ActionRestToConnected)
    case RestToWfs => Some(ActionRestToWfs)
    case RestToBinEval => Some(ActionRestToBinEval)
    case RestToRefused => Some(ActionRestToBinRefused)
    case RestToAccepted => Some(ActionRestToBinAccepted)
    case RestToUnknown => Some(ActionRestToBinUnknown)
    case RestToWeighing => Some(ActionRestToBinWeighing)
    case RestToEmptying => Some(ActionRestToBinEmptying)
    case StartToRest => Some(ActionStartToRest)
    case ConnectedToRest => Some(ActionConnectedToRest)
    case WfsToRest => Some(ActionBinEvalToRest)
    case BinEvalToRest => Some(ActionBinRefusedToRest)
    case RefusedToRest => Some(ActionBinUnknownToRest)
    case UnknownToRest => Some(ActionBinAcceptedToRest)
    case AcceptedToRest => Some(ActionBinWeighingToRest)
    case WeighingToRest => Some(ActionBinEmptyingToRest)
    case EmptyingToRest => None
  }

  /** `Slot` is the indexing of the 31-entry table by the enum value (past its end, the
      zero-initialised slot). */
  lemma SlotIsTableEntry(a: Action)
    ensures Slot(a) == if Ordinal(a) < |ActionsTab| then Some(ActionsTab[Ordinal(a)]) else None
  {
    match a {
      case Nop =>
      case ExitActive =>
      case EnterActive =>
      case StartToConnected =>
      case ConToWfs =>
      case WfsToBinEval =>
      case BinEvalToRefused =>
      case BinEvalToAccepted =>
      case BinEvalToUnknown =>
      case RefusedToAccepted =>
      case UnknownToAccepted =>
      case AcceptedToWeighing =>
      case WeighingToEmptying =>
      case EmptyingToWfs =>
      case RestToStart =>
      case RestToConnected =>
      case RestToWfs =>
      case RestToBinEval =>
      case RestToRefused =>
      case RestToAccepted =>
      case RestToUnknown =>
      case RestToWeighing =>
      case RestToEmptying =>
      case StartToRest =>
      case ConnectedToRest =>
      case WfsToRest =>
      case BinEvalToRest =>
      case RefusedToRest =>
      case UnknownToRest =>
      case AcceptedToRest =>
      case WeighingToRest =>
      case EmptyingToRest =>
    }
  }

  /** The action whose enum value follows `a`'s (the last one has none). */
  function Succ(a: Action): Action
    requires a != EmptyingToRest
  {
    match a
    case Nop => ExitActive
    case ExitActive => EnterActive
    case EnterActive => StartToConnected
    case StartToConnected => ConToWfs
    case ConToWfs => WfsToBinEval
    case WfsToBinEval => BinEvalToRefused
    case BinEvalToRefused => BinEvalToAccepted
    case BinEvalToAccepted => BinEvalToUnknown
    case BinEvalToUnknown => RefusedToAccepted
    case RefusedToAccepted => UnknownToAccepted
    case UnknownToAccepted => AcceptedToWeighing
    case AcceptedToWeighing => WeighingToEmptying
    case WeighingToEmptying => EmptyingToWfs
    case EmptyingToWfs => RestToStart
    case RestToStart => RestToConnected
    case RestToConnected => RestToWfs
    case RestToWfs => RestToBinEval
    case RestToBinEval => RestToRefused
    case RestToRefused => RestToAccepted
    case RestToAccepted => RestToUnknown
    case RestToUnknown => RestToWeighing
    case RestToWeighing => RestToEmptying
    case RestToEmptying => StartToRest
    case StartToRest => ConnectedToRest
    case ConnectedToRest => WfsToRest
    case WfsToRest => BinEvalToRest
    case BinEvalToRest => RefusedToRest
    case RefusedToRest => UnknownToRest
    case UnknownToRest => AcceptedToRest
    case AcceptedToRest => WeighingToRest
    case WeighingToRest => EmptyingToRest
  }

  /** The routine named after each action, the one the table was meant to hold. */
  function Intended(a: Action): Option<Routine> {
    match a
    case Nop => Some(ActionNop) case ExitActive => Some(ActionExit)
    case EnterActive => Some(ActionEnterActive) case StartToConnected => Some(ActionStartToConnected)
    case ConToWfs => Some(ActionConToWfs) case WfsToBinEval => Some(ActionWfsToBinEval)
    case BinEvalToRefused => Some(ActionBinEvalRefused)
    case BinEvalToAccepted => Some(ActionBinEvalAccepted)
    case BinEvalToUnknown => Some(ActionBinEvalUnknown)
    case RefusedToAccepted => Some(ActionBinRefusedToBinAccepted)
    case UnknownToAccepted => Some(ActionBinUnknownToBinAccepted)
    case AcceptedToWeighing => Some(ActionBinAcceptedToBinWeighing)
    case WeighingToEmptying => Some(ActionBinWeighingToBinEmptying)
    case EmptyingToWfs => Some(ActionBinEmptyingToWfs)
    case RestToStart => Some(ActionRestToStartActive) case RestToConnected => Some(ActionRestToConnected)
    case RestToWfs => Some(ActionRestToWfs) case RestToBinEval => Some(ActionRestToBinEval)
    case RestToRefused => Some(ActionRestToBinRefused) case RestToAccepted => Some(ActionRestToBinAccepted)
    case RestToUnknown => Some(ActionRestToBinUnknown) case RestToWeighing => Some(ActionRestToBinWeighing)
    case RestToEmptying => Some(ActionRestToBinEmptying)
    case StartToRest => Some(ActionStartToRest) case ConnectedToRest => Some(ActionConnectedToRest)
    case WfsToRest => None
    case BinEvalToRest => Some(ActionBinEvalToRest) case RefusedToRest => Some(ActionBinRefusedToRest)
    case UnknownToRest => Some(ActionBinUnknownToRest) case AcceptedToRest => Some(ActionBinAcceptedToRest)
    case WeighingToRest => Some(ActionBinWeighingToRest) case EmptyingToRest => Some(ActionBinEmptyingToRest)
  }

  /** The table holds the intended routine for the first 25 enum values; from value 25
      (waiting for signal to rest, which has no routine of its own) on, each slot holds
      the routine of the next enum value, and the last slot is empty. */
  lemma ActionTableShift(a: Action)
    ensures Ordinal(a) < 25 ==> Slot(a) == Intended(a)
    ensures 25 <= Ordinal(a) < 31 ==> Ordinal(Succ(a)) == Ordinal(a) + 1 && Slot(a) == Intended(Succ(a))
    ensures Ordinal(a) == 31 ==> Slot(a) == None && Intended(a).Some?
    ensures Intended(a) == None <==> a == WfsToRest
  {
  }

  /** One cell of `mySm`. */
  datatype Cell = Cell(dest: State, action: Action)

  const Lost: Cell := Cell(Forget, Nop)

  /** The transition matrix `mySm`; every pair not listed holds `Lost`. The E_STOP_BENNO
      cells of the active states name A_EXIT_ACTIVE but have destination `Forget`. */
  function Table(s: State, e: Event): (c: Cell)
    ensures c.action == Nop <==> c == Lost
    ensures c.dest == Forget && c != Lost <==> e == StopBenno && IsActive(s)
    ensures c != Lost && !IsActive(s) ==> e == EndOfRestRequest
  {
    match s
    case Start => (
      match e
      case ConnectionSignalOk => Cell(Connected, StartToConnected)
      case RestRequest => Cell(RestFromStart, StartToRest)
      case StopBenno => Cell(Forget, ExitActive)
      case _ => Lost)
    case Connected => (
      match e
      case DataReceptionOk => Cell(WaitingForSignal, ConToWfs)
      case RestRequest => Cell(RestFromConnected, ConnectedToRest)
      case StopBenno => Cell(Forget, ExitActive)
      case _ => Lost)
    case WaitingForSignal => (
      match e
      case BinStateRequest => Cell(BinEval, WfsToBinEval)
      case RestRequest => Cell(RestFromWaitingForSignal, WfsToRest)
      case StopBenno => Cell(Forget, ExitActive)
      case _ => Lost)
    case BinEval => (
      match e
      case EvalRefused => Cell(BinRefused, BinEvalToRefused)
      case EvalUnknown => Cell(BinUnknown, BinEvalToUnknown)
      case EvalAccepted => Cell(BinAccepted, BinEvalToAccepted)
      case RestRequest => Cell(RestFromBinEval, BinEvalToRest)
      case StopBenno => Cell(Forget, ExitActive)
      case _ => Lost)
    case BinRefused => (
      match e
      case ForceLift => Cell(BinAccepted, RefusedToAccepted)
      case RestRequest => Cell(RestFromRefused, RefusedToRest)
      case StopBenno => Cell(Forget, ExitActive)
      case _ => Lost)
    case BinUnknown => (
      match e
      case ForceLift => Cell(BinAccepted, UnknownToAccepted)
      case RestRequest => Cell(RestFromUnknown, UnknownToRest)
      case StopBenno => Cell(Forget, ExitActive)
      case _ => Lost)
    case BinAccepted => (
      match e
      case Lift => Cell(BinWeighing, AcceptedToWeighing)
      case RestRequest => Cell(RestFromAccepted, AcceptedToRest)
      case StopBenno => Cell(Forget, ExitActive)
      case _ => Lost)
    case BinWeighing => (
      match e
      case EmptyBinRequest => Cell(BinEmptying, WeighingToEmptying)
      case RestRequest => Cell(RestFromWeighing, WeighingToRest)
      case StopBenno => Cell(Forget, ExitActive)
      case _ => Lost)
    case BinEmptying => (
      match e
      case EmptyTimeElapsed => Cell(WaitingForSignal, EmptyingToWfs)
      case RestRequest => Cell(RestFromEmptying, EmptyingToRest)
      case StopBenno => Cell(Forget, ExitActive)
      case _ => Lost)
    case RestFromStart => (
      match e
      case EndOfRestRequest => Cell(Start, RestToStart)
      case _ => Lost)
    case RestFromConnected => (
      match e
      case EndOfRestRequest => Cell(Connected, RestToConnected)
      case _ => Lost)
    case RestFromWaitingForSignal => (
      match e
      case EndOfRestRequest => Cell(WaitingForSignal, RestToWfs)
      case _ => Lost)
    case RestFromBinEval => (
      match e
      case EndOfRestRequest => Cell(BinEval, RestToBinEval)
      case _ => Lost)
    case RestFromRefused => (
      match e
      case EndOfRestRequest => Cell(BinRefused, RestToRefused)
      case _ => Lost)
    case RestFromUnknown => (
      match e
      case EndOfRestRequest => Cell(BinUnknown, RestToUnknown)
      case _ => Lost)
    case RestFromAccepted => (
      match e
      case EndOfRestRequest => Cell(BinAccepted, RestToAccepted)
      case _ => Lost)
    case RestFromWeighing => (
      match e
      case EndOfRestRequest => Cell(BinWeighing, RestToWeighing)
      case _ => Lost)
    case RestFromEmptying => (
      match e
      case EndOfRestRequest => Cell(BinEmptying, RestToEmptying)
      case _ => Lost)
    case _ => Lost
  }

  /** The empty-time watchdog delay, in microseconds. */
  const EmptyTime: nat := 5 * 1000 * 1000

  /** What the speaker asks of the LEDs, the watchdog and the other objects. */
  datatype Output =
    | ShowStartOk                 // indicateStartOk: three white blinks
    | ShowConnectionOk            // indicateConnectionOk (also indicateEndOfRest)
    | ShowDataReception           // the orange blinks of Speaker_requestDataReceptionSignalOk
    | ShowBinState(state: BinState) // indicateBinState
    | ShowRest                    // indicateRest
    | StopTools                   // TourManager_requestToStopTools
    | AskWeight                   // TourManager_requestToAskWeight
    | TimeOutEmptyTime            // TourManager_timeOutEmptyTime
    | StartEmptyTimer(delay: nat) // Watchdog_construct and Watchdog_start
    | CancelEmptyTimer            // reset: Watchdog_cancel and Watchdog_destroy
    | StartButtons                // the three buttons' startPolling
    | ReleaseDevices              // the buttons' stopPolling and free, Leds_free

  datatype Speaker = Speaker(
    state: State,
    inbox: Mailbox.Queue<Event>,
    inhibitor: bool,              // inhibitor
    currentBinState: BinState)    // myCurrentBinState

  /** The statics before anything runs: S_START, inhibitor on, bin state zero (ACCEPTED). */
  const Initial: Speaker := Speaker(Start, [], true, Accepted)

  /** `evaluateBinState`'s choice of event. */
  function EvaluationOf(bs: BinState): (r: Event)
    ensures r == EvalAccepted || r == EvalRefused || r == EvalUnknown
  {
    match bs
    case Accepted => EvalAccepted
    case Refused => EvalRefused
    case Unknown => EvalUnknown
  }

  /** The state BinEval moves to for a given bin state. */
  function VerdictState(bs: BinState): State {
    match bs
    case Accepted => BinAccepted
    case Refused => BinRefused
    case Unknown => BinUnknown
  }

  /** Each bin state has its own evaluation event, which leads from BinEval to the
      matching verdict state. */
  lemma EvaluationMatchesVerdict(bs: BinState, bs': BinState)
    ensures EvaluationOf(bs) == EvaluationOf(bs') <==> bs == bs'
    ensures Table(BinEval, EvaluationOf(bs)).dest == VerdictState(bs)
  {
  }

  /** `emptyBin`: the inhibitor is cleared and then set again. */
  function EmptyBin(sp: Speaker): (r: Speaker)
    ensures r.inhibitor
    ensures r.(inhibitor := sp.inhibitor) == sp
  {
    var cleared := sp.(inhibitor := false);   // deactivateBinInhibitor
    cleared.(inhibitor := true)               // activateBinInhibitor
  }

  /** The three routines that release the inhibitor. */
  predicate Clears(r: Routine) {
    r == ActionBinEvalAccepted || r == ActionBinRefusedToBinAccepted || r == ActionBinUnknownToBinAccepted
  }

  /** What a routine does to the object's fields. Only `actionWfsToBinEval` posts to the
      object's own mailbox; the three routines into BinAccepted release the inhibitor and
      the weighing-to-emptying routine runs `emptyBin`. */
  function Effect(sp: Speaker, r: Routine): (res: Speaker)
    requires r == ActionWfsToBinEval ==> Mailbox.HasRoom(sp.inbox)
    ensures res.(inbox := sp.inbox, inhibitor := sp.inhibitor) == sp
    ensures res.inbox == if r == ActionWfsToBinEval then sp.inbox + [EvaluationOf(sp.currentBinState)]
                         else sp.inbox
    ensures res.inhibitor == if Clears(r) then false
                             else if r == ActionBinWeighingToBinEmptying then true
                             else sp.inhibitor
  {
    if r == ActionWfsToBinEval then
      sp.(inbox := Mailbox.Send(sp.inbox, EvaluationOf(sp.currentBinState)))
    else if Clears(r) then sp.(inhibitor := false)       // deactivateBinInhibitor
    else if r == ActionBinWeighingToBinEmptying then EmptyBin(sp)
    else sp
  }

  /** The signals and requests a routine emits, in call order: at most two; only the lift
      from BinAccepted asks for the weight; the rest signal comes from the routines into a
      rest state, and only the one from BinEmptying cancels the watchdog; no routine
      releases or starts the devices. */
  function Emitted(sp: Speaker, r: Routine): (o: seq<Output>)
    ensures |o| <= 2
    ensures AskWeight in o <==> r == ActionBinAcceptedToBinWeighing
    ensures ShowRest in o <==> ShowsRestOnly(r) || r == ActionBinEmptyingToRest
    ensures CancelEmptyTimer in o <==> r == ActionBinEmptyingToRest
    ensures ReleaseDevices !in o && StartButtons !in o
  {
    match r
    case ActionNop => []
    case ActionExit => [StopTools]
    case ActionEnterActive => [ShowStartOk]
    case ActionStartToConnected => [ShowConnectionOk]
    case ActionConToWfs => []   // indicateDataReceptionOk has an empty body
    case ActionWfsToBinEval => []
    case ActionBinEvalRefused => [ShowBinState(sp.currentBinState)]
    case ActionBinEvalAccepted => [ShowBinState(sp.currentBinState)]
    case ActionBinEvalUnknown => [ShowBinState(sp.currentBinState)]
    case ActionBinRefusedToBinAccepted => []
    case ActionBinUnknownToBinAccepted => []
    case ActionBinAcceptedToBinWeighing => [AskWeight]
    case ActionBinWeighingToBinEmptying => [StartEmptyTimer(EmptyTime)]
    case ActionBinEmptyingToWfs => [TimeOutEmptyTime]
    case ActionRestToStartActive | ActionRestToConnected | ActionRestToWfs | ActionRestToBinEval
       | ActionRestToBinRefused | ActionRestToBinAccepted | ActionRestToBinUnknown
       | ActionRestToBinWeighing | ActionRestToBinEmptying =>
      [ShowConnectionOk]
    case ActionStartToRest | ActionConnectedToRest | ActionBinEvalToRest | ActionBinRefusedToRest
       | ActionBinUnknownToRest | ActionBinAcceptedToRest | ActionBinWeighingToRest =>
      [ShowRest]
    case ActionBinEmptyingToRest => [CancelEmptyTimer, ShowRest]
  }

  /** Only `actionExit` asks the tour manager to stop the tools. */
  lemma OnlyExitStopsTools(sp: Speaker, r: Routine)
    ensures StopTools in Emitted(sp, r) <==> r == ActionExit
  {
  }

  /** Runs one action routine: its effect on the fields and what it emits. */
  function Execute(sp: Speaker, r: Routine): (res: (Speaker, seq<Output>))
    requires r == ActionWfsToBinEval ==> Mailbox.HasRoom(sp.inbox)
    ensures res.0.state == sp.state && res.0.currentBinState == sp.currentBinState
    ensures res.0.inbox == sp.inbox || (r == ActionWfsToBinEval && res.0.inbox == sp.inbox + [EvaluationOf(sp.currentBinState)])
    ensures res.0.inhibitor == if Clears(r) then false
                               else if r == ActionBinWeighingToBinEmptying then true
                               else sp.inhibitor
  {
    (Effect(sp, r), Emitted(sp, r))
  }

  /** The result of handling messages: the object goes on, or the call through the empty
      slot of `actionsTab` crashes the process after the outputs already emitted. */
  datatype Outcome = Done(speaker: Speaker, outs: seq<Output>) | Crashed(outs: seq<Output>)

  /** The one case in which handling an event needs room in the object's own mailbox. */
  predicate CanHandle(sp: Speaker, e: Event) {
    Table(sp.state, e).action == WfsToBinEval ==> Mailbox.HasRoom(sp.inbox)
  }

  /** `transitionFct1`: a cell with destination `Forget` loses the event; otherwise the
      routine in the action's slot runs and the state moves to the destination, unless the
      slot is empty. */
  function Transition(sp: Speaker, e: Event): (r: Outcome)
    requires CanHandle(sp, e)
    ensures Table(sp.state, e).dest == Forget ==> r == Done(sp, [])
    ensures r.Crashed? <==> Table(sp.state, e).dest != Forget && Table(sp.state, e).action == EmptyingToRest
    ensures r.Done? && Table(sp.state, e).dest != Forget ==> r.speaker.state == Table(sp.state, e).dest
    ensures r.Done? ==> |r.speaker.inbox| <= |sp.inbox| + 1
  {
    var c := Table(sp.state, e);
    if c.dest == Forget then Done(sp, [])
    else
      match Slot(c.action)
      case None => Crashed([])
      case Some(routine) =>
        var (m, outs) := Execute(sp, routine);
        Done(m.(state := c.dest), outs)
  }

  /** The body of `run` for one received event: E_STOP_BENNO sets `Forget` before any
      table lookup. */
  function Receive(sp: Speaker, e: Event): (r: Outcome)
    requires CanHandle(sp, e)
    ensures e == StopBenno ==> r == Done(sp.(state := Forget), [])
    ensures e != StopBenno ==> r == Transition(sp, e)
  {
    if e == StopBenno then Done(sp.(state := Forget), []) else Transition(sp, e)
  }

  /** `run`: up to n iterations of the worker loop; it ends once the state is `Forget`, an
      empty mailbox blocks it, and a crash ends the process. Any number of iterations keep
      the inhibitor invariant. */
  function Run(sp: Speaker, n: nat): (r: Outcome)
    requires |sp.inbox| <= Mailbox.Capacity
    ensures r.Done? ==> |r.speaker.inbox| <= Mailbox.Capacity
    ensures n == 0 || sp.state == Forget || sp.inbox == [] ==> r == Done(sp, [])
    ensures r.Done? && InhibitorSound(sp) ==> InhibitorSound(r.speaker)
    decreases n
  {
    if n == 0 || sp.state == Forget || sp.inbox == [] then Done(sp, [])
    else
      var (e, rest) := Mailbox.Receive(sp.inbox);
      ReceiveKeepsInhibitorSound(sp.(inbox := rest), e);
      match Receive(sp.(inbox := rest), e)
      case Crashed(outs) => Crashed(outs)
      case Done(m, outs) =>
        match Run(m, n - 1)
        case Crashed(outs') => Crashed(outs + outs')
        case Done(m', outs') => Done(m', outs + outs')
  }

  // ---------------------------------------------------------------------------------
  // The public functions, called from other threads

  /** `mqSend` from another thread: `Speaker_requestRestSignal`,
      `Speaker_requestEndOfRestSignal`, `Speaker_requestToEmptyBin`,
      `Speaker_forceLiftBin` and the watchdog's `Speaker_timeOut` each post one event. */
  function Post(sp: Speaker, e: Event): (r: Speaker)
    requires Mailbox.HasRoom(sp.inbox)
    ensures r.inbox == sp.inbox + [e]
    ensures r.(inbox := sp.inbox) == sp
  {
    sp.(inbox := Mailbox.Send(sp.inbox, e))
  }

  /** `Speaker_requestStartSignalOk` (startBenno): a fresh mailbox, the buttons polled,
      the start blinks, and the inhibitor set. */
  function RequestStartSignalOk(sp: Speaker): (r: (Speaker, seq<Output>))
    ensures r.0.inbox == [] && r.0.inhibitor
    ensures r.0.state == sp.state && r.1 == [StartButtons, ShowStartOk]
  {
    (sp.(inbox := [], inhibitor := true), [StartButtons, ShowStartOk])
  }

  /** `Speaker_requestConnectionSignalOk`: the LED is lit in the caller's thread, then
      E_RE_CONNEXION_SIOK is queued. */
  function RequestConnectionSignalOk(sp: Speaker): (r: (Speaker, seq<Output>))
    requires Mailbox.HasRoom(sp.inbox)
    ensures r.0.inbox == sp.inbox + [ConnectionSignalOk] && r.0.(inbox := sp.inbox) == sp
    ensures r.1 == [ShowConnectionOk]
  {
    (Post(sp, ConnectionSignalOk), [ShowConnectionOk])
  }

  /** `Speaker_requestDataReceptionSignalOk`: blinks, then E_RE_DATA_CONNEXIONOK. */
  function RequestDataReceptionSignalOk(sp: Speaker): (r: (Speaker, seq<Output>))
    requires Mailbox.HasRoom(sp.inbox)
    ensures r.0.inbox == sp.inbox + [DataReceptionOk] && r.0.(inbox := sp.inbox) == sp
    ensures r.1 == [ShowDataReception]
  {
    (Post(sp, DataReceptionOk), [ShowDataReception])
  }

  /** `Speaker_requestDataReceptionSignalKo`: the start blinks again, in the caller's
      thread; nothing is queued and the state machine does not see it. */
  function RequestDataReceptionSignalKo(sp: Speaker): (r: (Speaker, seq<Output>))
    ensures r.0 == sp && r.1 == [ShowStartOk]
  {
    (sp, [ShowStartOk])
  }

  /** `Speaker_requestBinStateSignal`: the bin state is stored at once, in the caller's
      thread, and E_RE_BIN_STATE is queued without it. */
  function RequestBinStateSignal(sp: Speaker, bs: BinState): (r: Speaker)
    requires Mailbox.HasRoom(sp.inbox)
    ensures r.currentBinState == bs && r.inbox == sp.inbox + [BinStateRequest]
    ensures r.state == sp.state && r.inhibitor == sp.inhibitor
  {
    Post(sp.(currentBinState := bs), BinStateRequest)
  }

  /** `Speaker_liftBin`: E_LIFT_BIN is queued exactly when the inhibitor is off. */
  function LiftBin(sp: Speaker): (r: Speaker)
    requires !sp.inhibitor ==> Mailbox.HasRoom(sp.inbox)
    ensures r.inbox == (if sp.inhibitor then sp.inbox else sp.inbox + [Lift])
    ensures r.(inbox := sp.inbox) == sp
  {
    if !sp.inhibitor then Post(sp, Lift) else sp
  }

  /** The two builds of the program: `TourManager_requestToStopTools` calls `exit()` first
      in the production build, and stops the other objects one by one under
      `_TESTING_MODE`. */
  datatype Build = Production | Testing

  /** `Speaker_stopBenno`: the buttons and LEDs are released and the tour manager is asked
      to stop the tools. In the production build that request ends the process, so the
      `mqSend` of E_STOP_BENNO after it is never reached; only the testing build queues it. */
  function StopBennoRequest(sp: Speaker, build: Build): (r: (Speaker, seq<Output>))
    requires build == Testing ==> Mailbox.HasRoom(sp.inbox)
    ensures r.1 == [ReleaseDevices, StopTools]
    ensures r.0.(inbox := sp.inbox) == sp
    ensures r.0.inbox == if build == Production then sp.inbox else sp.inbox + [StopBenno]
  {
    if build == Testing then (Post(sp, StopBenno), [ReleaseDevices, StopTools])
    else (sp, [ReleaseDevices, StopTools])
  }

  /** In the testing build, the stop request reaches the loop: an idle speaker handles
      E_STOP_BENNO on its next iteration and ends in `Forget`. In the production build the
      object is left as it was, the process having exited. */
  lemma StopRequestEndsLoop(sp: Speaker, n: nat)
    requires sp.inbox == [] && sp.state != Forget && n >= 1
    ensures Run(StopBennoRequest(sp, Testing).0, n) == Done(sp.(state := Forget), [])
    ensures StopBennoRequest(sp, Production).0 == sp
  {
    StopEndsLoop(StopBennoRequest(sp, Testing).0, [], n);
  }

  // ---------------------------------------------------------------------------------
  // Properties

  /** E_STOP_BENNO ends the loop in `Forget` from every state, rest states included;
      nothing behind it in the mailbox is taken. */
  lemma StopEndsLoop(sp: Speaker, rest: seq<Event>, n: nat)
    requires sp.inbox == [StopBenno] + rest && |sp.inbox| <= Mailbox.Capacity
    requires sp.state != Forget && n >= 1
    ensures Run(sp, n) == Done(sp.(state := Forget, inbox := rest), [])
  {
    assert Mailbox.Receive(sp.inbox) == (StopBenno, rest);
    var m := sp.(state := Forget, inbox := rest);
    assert Run(m, n - 1) == Done(m, []);
    var none: seq<Output> := [];
    assert none + none == none;
  }

  /** A_EXIT_ACTIVE never runs: every cell naming it has destination `Forget`, so no
      handled event asks the tour manager to stop the tools. */
  lemma ExitActiveNeverRuns(sp: Speaker, e: Event)
    requires CanHandle(sp, e)
    ensures forall s: State :: Table(s, e).action == ExitActive ==> Table(s, e).dest == Forget
    ensures Receive(sp, e).Done? ==> StopTools !in Receive(sp, e).outs
  {
    ExitActiveCells(e);
    var c := Table(sp.state, e);
    if e != StopBenno && c.dest != Forget && Slot(c.action).Some? {
      var routine := Slot(c.action).value;
      ExitActiveCell(sp.state, e);
      ExitSlot(c.action);
      CellRuns(sp, e, c, routine);
      OnlyExitStopsTools(sp, routine);
    }
  }

  /** Only A_EXIT_ACTIVE's slot holds `actionExit`. */
  lemma ExitSlot(a: Action)
    ensures Slot(a) == Some(ActionExit) <==> a == ExitActive
  {
  }

  /** No cell naming A_EXIT_ACTIVE leaves `Forget` as destination. */
  lemma ExitActiveCells(e: Event)
    ensures forall s: State :: Table(s, e).action == ExitActive ==> Table(s, e).dest == Forget
  {
    forall s: State ensures Table(s, e).action == ExitActive ==> Table(s, e).dest == Forget {
      ExitActiveCell(s, e);
    }
  }

  /** The cells naming A_EXIT_ACTIVE are the E_STOP_BENNO cells, all with destination
      `Forget`. */
  lemma ExitActiveCell(s: State, e: Event)
    ensures Table(s, e).action == ExitActive ==> e == StopBenno && Table(s, e).dest == Forget
  {
  }

  /** The nine active states. */
  predicate IsActive(s: State) {
    s == Start || s == Connected || s == WaitingForSignal || s == BinEval || s == BinRefused
    || s == BinUnknown || s == BinAccepted || s == BinWeighing || s == BinEmptying
  }

  /** The rest variant of each active state. */
  function RestOf(s: State): State
    requires IsActive(s)
  {
    match s
    case Start => RestFromStart
    case Connected => RestFromConnected
    case WaitingForSignal => RestFromWaitingForSignal
    case BinEval => RestFromBinEval
    case BinRefused => RestFromRefused
    case BinUnknown => RestFromUnknown
    case BinAccepted => RestFromAccepted
    case BinWeighing => RestFromWeighing
    case BinEmptying => RestFromEmptying
  }

  /** Each active state goes on E_RE_REST to its own rest variant, E_RE_ENDOFREST returns
      to exactly that state, and every other event except E_STOP_BENNO is lost there. */
  lemma RestReturnsToOrigin(s: State, e: Event)
    ensures Table(s, RestRequest).dest != Forget <==> IsActive(s)
    ensures IsActive(s) ==> Table(s, RestRequest).dest == RestOf(s)
    ensures IsActive(s) ==> Table(RestOf(s), EndOfRestRequest).dest == s
    ensures IsActive(s) && e != EndOfRestRequest ==> Table(RestOf(s), e) == Lost
  {
  }

  /** The routines that only show the rest signal. */
  predicate ShowsRestOnly(r: Routine) {
    r == ActionStartToRest || r == ActionConnectedToRest || r == ActionBinEvalToRest
    || r == ActionBinRefusedToRest || r == ActionBinUnknownToRest || r == ActionBinAcceptedToRest
    || r == ActionBinWeighingToRest
  }

  /** The routines that only show the end-of-rest signal. */
  predicate ShowsEndOfRestOnly(r: Routine) {
    r == ActionRestToStartActive || r == ActionRestToConnected || r == ActionRestToWfs
    || r == ActionRestToBinEval || r == ActionRestToBinRefused || r == ActionRestToBinAccepted
    || r == ActionRestToBinUnknown || r == ActionRestToBinWeighing || r == ActionRestToBinEmptying
  }

  lemma ExecuteShowsRest(sp: Speaker, r: Routine)
    requires ShowsRestOnly(r)
    ensures Execute(sp, r) == (sp, [ShowRest])
  {
  }

  lemma ExecuteShowsEndOfRest(sp: Speaker, r: Routine)
    requires ShowsEndOfRestOnly(r)
    ensures Execute(sp, r) == (sp, [ShowConnectionOk])
  {
  }

  /** The E_RE_REST cells of the seven active states other than BinWeighing and
      BinEmptying reach, through the shifted slots, a routine that only shows the rest
      signal. */
  lemma RestCell(s: State)
    requires IsActive(s) && s != BinWeighing && s != BinEmptying
    ensures && Table(s, RestRequest).dest == RestOf(s)
            && Slot(Table(s, RestRequest).action).Some?
            && ShowsRestOnly(Slot(Table(s, RestRequest).action).value)
  {
    match s {
      case Start =>
      case Connected =>
      case WaitingForSignal =>
      case BinEval =>
      case BinRefused =>
      case BinUnknown =>
      case BinAccepted =>
      case BinWeighing =>
      case BinEmptying =>
    }
  }

  /** Every rest state's E_RE_ENDOFREST cell leads back to its active state through a
      routine that only shows the end-of-rest signal. */
  lemma EndOfRestCell(s: State)
    requires IsActive(s)
    ensures && Table(RestOf(s), EndOfRestRequest).dest == s
            && Slot(Table(RestOf(s), EndOfRestRequest).action).Some?
            && ShowsEndOfRestOnly(Slot(Table(RestOf(s), EndOfRestRequest).action).value)
  {
    match s {
      case Start =>
      case Connected =>
      case WaitingForSignal =>
      case BinEval =>
      case BinRefused =>
      case BinUnknown =>
      case BinAccepted =>
      case BinWeighing =>
      case BinEmptying =>
    }
  }

  /** Resting through the shifted table from the seven active states other than
      BinWeighing and BinEmptying shows the rest signal, as intended. */
  lemma RestShowsSignal(sp: Speaker)
    requires IsActive(sp.state) && sp.state != BinWeighing && sp.state != BinEmptying
    ensures Receive(sp, RestRequest) == Done(sp.(state := RestOf(sp.state)), [ShowRest])
  {
    RestCell(sp.state);
    TransitionRunsSlot(sp, RestRequest);
    ExecuteShowsRest(sp, Slot(Table(sp.state, RestRequest).action).value);
  }

  /** From BinWeighing, E_RE_REST runs the slot of the next enum value, the
      emptying-to-rest routine, which also cancels the empty-time watchdog (none is armed
      in BinWeighing). */
  lemma RestFromWeighingCancelsTimer(sp: Speaker)
    requires sp.state == BinWeighing
    ensures Receive(sp, RestRequest) == Done(sp.(state := RestFromWeighing), [CancelEmptyTimer, ShowRest])
  {
    CellRuns(sp, RestRequest, Cell(RestFromWeighing, WeighingToRest), ActionBinEmptyingToRest);
  }

  /** From BinEmptying, E_RE_REST calls through the empty slot: the process crashes. */
  lemma RestFromEmptyingCrashes(sp: Speaker)
    requires sp.state == BinEmptying
    ensures Receive(sp, RestRequest) == Crashed([])
  {
    assert Table(sp.state, RestRequest) == Cell(RestFromEmptying, EmptyingToRest);
    assert Slot(EmptyingToRest) == None;
  }

  /** Ending a rest always restores the state it was entered from and shows the
      end-of-rest signal. */
  lemma EndOfRestRestores(sp: Speaker)
    requires IsActive(sp.state)
    ensures Receive(sp.(state := RestOf(sp.state)), EndOfRestRequest) == Done(sp, [ShowConnectionOk])
  {
    var resting := sp.(state := RestOf(sp.state));
    EndOfRestCell(sp.state);
    TransitionRunsSlot(resting, EndOfRestRequest);
    ExecuteShowsEndOfRest(resting, Slot(Table(resting.state, EndOfRestRequest).action).value);
  }

  /** The evaluation round trip: in WaitingForSignal, E_RE_BIN_STATE posts the evaluation
      event for the stored bin state; handling that event reaches the verdict state and
      shows the bin state, and only the accepted verdict releases the inhibitor. */
  lemma EvaluationRoundTrip(sp: Speaker)
    requires sp.state == WaitingForSignal && sp.inbox == []
    ensures var o1 := Receive(sp, BinStateRequest);
            && o1 == Done(sp.(state := BinEval, inbox := [EvaluationOf(sp.currentBinState)]), [])
            && Run(o1.speaker, 1) ==
                 Done(sp.(state := VerdictState(sp.currentBinState),
                          inhibitor := sp.inhibitor && sp.currentBinState != Accepted),
                      [ShowBinState(sp.currentBinState)])
  {
    BinStateStep(sp);
    var m := sp.(state := BinEval, inbox := [EvaluationOf(sp.currentBinState)]);
    VerdictStep(m.(inbox := []));
    RunOne(m, EvaluationOf(sp.currentBinState));
  }

  /** In WaitingForSignal, E_RE_BIN_STATE moves to BinEval and posts the evaluation. */
  lemma BinStateStep(sp: Speaker)
    requires sp.state == WaitingForSignal && Mailbox.HasRoom(sp.inbox)
    ensures Receive(sp, BinStateRequest) ==
              Done(sp.(state := BinEval, inbox := sp.inbox + [EvaluationOf(sp.currentBinState)]), [])
  {
    CellRuns(sp, BinStateRequest, Cell(BinEval, WfsToBinEval), ActionWfsToBinEval);
  }

  /** In BinEval, the evaluation event moves to the verdict state and shows the verdict;
      only an accepted bin releases the inhibitor. */
  lemma VerdictStep(sp: Speaker)
    requires sp.state == BinEval
    ensures Receive(sp, EvaluationOf(sp.currentBinState)) ==
              Done(sp.(state := VerdictState(sp.currentBinState),
                       inhibitor := sp.inhibitor && sp.currentBinState != Accepted),
                   [ShowBinState(sp.currentBinState)])
  {
    match sp.currentBinState {
      case Accepted =>
        CellRuns(sp, EvalAccepted, Cell(BinAccepted, BinEvalToAccepted), ActionBinEvalAccepted);
      case Refused =>
        CellRuns(sp, EvalRefused, Cell(BinRefused, BinEvalToRefused), ActionBinEvalRefused);
      case Unknown =>
        CellRuns(sp, EvalUnknown, Cell(BinUnknown, BinEvalToUnknown), ActionBinEvalUnknown);
    }
  }

  /** One queued message: one iteration of the loop handles exactly that message. */
  lemma RunOne(sp: Speaker, e: Event)
    requires sp.inbox == [e] && sp.state != Forget && CanHandle(sp.(inbox := []), e)
    ensures Run(sp, 1) == Receive(sp.(inbox := []), e)
  {
    assert Mailbox.Receive(sp.inbox) == (e, []);
    var o := Receive(sp.(inbox := []), e);
    if o.Done? {
      assert Run(o.speaker, 0) == Done(o.speaker, []);
      assert o.outs + [] == o.outs;
    }
  }

  /** Force-lift leaves exactly BinRefused and BinUnknown for BinAccepted, releasing the
      inhibitor; it is lost everywhere else. */
  lemma ForceLiftAccepts(sp: Speaker, s: State)
    ensures Table(s, ForceLift).dest != Forget <==> s == BinRefused || s == BinUnknown
    ensures sp.state == BinRefused || sp.state == BinUnknown ==>
              Receive(sp, ForceLift) == Done(sp.(state := BinAccepted, inhibitor := false), [])
  {
    if sp.state == BinRefused {
      CellRuns(sp, ForceLift, Cell(BinAccepted, RefusedToAccepted), ActionBinRefusedToBinAccepted);
    } else if sp.state == BinUnknown {
      CellRuns(sp, ForceLift, Cell(BinAccepted, UnknownToAccepted), ActionBinUnknownToBinAccepted);
    }
  }

  /** BinAccepted -Lift-> BinWeighing asks the tour manager for the weight. */
  lemma LiftAsksWeight(sp: Speaker)
    requires sp.state == BinAccepted
    ensures Receive(sp, Lift) == Done(sp.(state := BinWeighing), [AskWeight])
  {
    CellRuns(sp, Lift, Cell(BinWeighing, AcceptedToWeighing), ActionBinAcceptedToBinWeighing);
  }

  /** BinWeighing -EmptyBin-> BinEmptying arms the 5 s watchdog and leaves the inhibitor
      set, whatever it was before. */
  lemma EmptyingArmsTimer(sp: Speaker)
    requires sp.state == BinWeighing
    ensures Receive(sp, EmptyBinRequest) ==
              Done(sp.(state := BinEmptying, inhibitor := true), [StartEmptyTimer(EmptyTime)])
  {
    CellRuns(sp, EmptyBinRequest, Cell(BinEmptying, WeighingToEmptying), ActionBinWeighingToBinEmptying);
  }

  /** BinEmptying -TimeOut-> WaitingForSignal reports the time-out to the tour manager. */
  lemma EmptyTimeOutReported(sp: Speaker)
    requires sp.state == BinEmptying
    ensures Receive(sp, EmptyTimeElapsed) == Done(sp.(state := WaitingForSignal), [TimeOutEmptyTime])
  {
    CellRuns(sp, EmptyTimeElapsed, Cell(WaitingForSignal, EmptyingToWfs), ActionBinEmptyingToWfs);
  }

  /** The states in which the inhibitor may be off: the bin has been accepted (or the
      loop has ended) and the lift or weighing is not yet over. */
  predicate MayLift(s: State) {
    s == BinAccepted || s == BinWeighing || s == RestFromAccepted || s == RestFromWeighing
    || s == Forget
  }

  /** The inhibitor invariant: whenever the inhibitor is off, the object is in a state
      that may lift. */
  predicate InhibitorSound(sp: Speaker) {
    !sp.inhibitor ==> MayLift(sp.state)
  }

  /** The actions into BinAccepted. */
  predicate IntoAccepted(a: Action) {
    a == BinEvalToAccepted || a == RefusedToAccepted || a == UnknownToAccepted
  }

  /** The slots holding a routine that releases the inhibitor are exactly those of the
      three actions into BinAccepted (all below the shift). */
  lemma ClearingSlots(a: Action)
    ensures Slot(a).Some? && Clears(Slot(a).value) <==> IntoAccepted(a)
  {
  }

  /** The cells naming an action into BinAccepted are exactly the three transitions into
      BinAccepted: BinEval on an accepted verdict, BinRefused or BinUnknown on
      force-lift. */
  lemma ClearingCells(s: State, e: Event)
    ensures IntoAccepted(Table(s, e).action) ==>
            || (s == BinEval && e == EvalAccepted)
            || (s == BinRefused && e == ForceLift)
            || (s == BinUnknown && e == ForceLift)
  {
    match s {
      case Forget =>
      case Start =>
      case Connected =>
      case WaitingForSignal =>
      case BinEval =>
      case BinRefused =>
      case BinUnknown =>
      case BinAccepted =>
      case BinWeighing =>
      case BinEmptying =>
      case RestFromStart =>
      case RestFromConnected =>
      case RestFromWaitingForSignal =>
      case RestFromBinEval =>
      case RestFromRefused =>
      case RestFromUnknown =>
      case RestFromAccepted =>
      case RestFromWeighing =>
      case RestFromEmptying =>
    }
  }

  /** A cell leaves the states that may lift only by running the weighing-to-emptying
      routine, which sets the inhibitor again. */
  lemma LeavingMayLift(s: State, e: Event)
    requires MayLift(s) && Table(s, e).dest != Forget && !MayLift(Table(s, e).dest)
    ensures Slot(Table(s, e).action) == Some(ActionBinWeighingToBinEmptying)
  {
  }

  /** Handling an event whose cell is `c` and whose slot holds `routine`. */
  lemma CellRuns(sp: Speaker, e: Event, c: Cell, routine: Routine)
    requires e != StopBenno && Table(sp.state, e) == c && c.dest != Forget
    requires Slot(c.action) == Some(routine) && CanHandle(sp, e)
    ensures Receive(sp, e) == Done(Execute(sp, routine).0.(state := c.dest), Execute(sp, routine).1)
  {
  }

  /** Handling one event from a state whose cell is not lost runs the slot's routine. */
  lemma TransitionRunsSlot(sp: Speaker, e: Event)
    requires CanHandle(sp, e) && Table(sp.state, e).dest != Forget && Slot(Table(sp.state, e).action).Some?
    ensures var routine := Slot(Table(sp.state, e).action).value;
            Transition(sp, e) ==
              Done(Execute(sp, routine).0.(state := Table(sp.state, e).dest), Execute(sp, routine).1)
  {
  }

  /** The inhibitor is cleared exactly by the three transitions into BinAccepted. */
  lemma InhibitorClearedOnlyOnAcceptance(sp: Speaker, e: Event)
    requires CanHandle(sp, e) && sp.inhibitor
    ensures Receive(sp, e).Done? && !Receive(sp, e).speaker.inhibitor <==>
              || (sp.state == BinEval && e == EvalAccepted)
              || (sp.state == BinRefused && e == ForceLift)
              || (sp.state == BinUnknown && e == ForceLift)
  {
    ClearingCells(sp.state, e);
    var c := Table(sp.state, e);
    ClearingSlots(c.action);
    if e != StopBenno && c.dest != Forget && Slot(c.action).Some? {
      TransitionRunsSlot(sp, e);
    }
  }

  /** Handling one event keeps the inhibitor invariant. */
  lemma ReceiveKeepsInhibitorSound(sp: Speaker, e: Event)
    requires CanHandle(sp, e)
    ensures InhibitorSound(sp) && Receive(sp, e).Done? ==> InhibitorSound(Receive(sp, e).speaker)
  {
    var c := Table(sp.state, e);
    if InhibitorSound(sp) && e != StopBenno && c.dest != Forget && Slot(c.action).Some? {
      TransitionRunsSlot(sp, e);
      ClearingCells(sp.state, e);
      ClearingSlots(c.action);
      if !sp.inhibitor && !MayLift(c.dest) {
        LeavingMayLift(sp.state, e);
      }
    }
  }

  /** Together with the invariant, `Speaker_liftBin` queues E_LIFT_BIN only while the
      object is in a state that may lift: after start-up no lift request gets through
      before a bin is accepted. */
  lemma LiftOnlyAfterAcceptance(sp: Speaker)
    requires InhibitorSound(sp) && Mailbox.HasRoom(sp.inbox)
    ensures LiftBin(sp).inbox != sp.inbox <==> !sp.inhibitor
    ensures LiftBin(sp).inbox != sp.inbox ==> MayLift(sp.state)
  {
  }

  /** Start-up establishes the invariant, and the public functions keep it. */
  lemma PublicFunctionsKeepInhibitorSound(sp: Speaker, bs: BinState, e: Event)
    requires InhibitorSound(sp) && Mailbox.HasRoom(sp.inbox)
    ensures InhibitorSound(Initial)
    ensures InhibitorSound(RequestStartSignalOk(sp).0)
    ensures InhibitorSound(Post(sp, e))
    ensures InhibitorSound(RequestBinStateSignal(sp, bs))
    ensures InhibitorSound(LiftBin(sp))
  {
  }
}
