/** The LED state machine of ledcon.c for IR8 and ER6. */
module Led {
  import opened Common

  datatype State =
    | DialDisable | StartUp | DialOtherError | DialModemError | DialNoSim | Dialing | DialUp
    | EthDisable | EthUp | EthDialUp | EthDown | EthDialDisable

  datatype Event =
    | EvDialDisable | EvDialStart | EvDialDown | EvDialOtherError | EvDialModemError | EvDialNoSim | EvDialUp
    | EvEthDisable | EvEthUp | EvEthDown

  datatype Action = Off | On | Flash | FlashFast

  // A line of led_evt_tasks.
  datatype Row = Row(state: State, event: Event, next: State)

  // A line of led_handlers; the first light is blue on IR8 and yellow on ER6.
  datatype Handler = Handler(state: State, first: Action, green: Action, red: Action)

  const TASKS: nat := 75
  const HANDLERS: nat := 12

  function Task(i: nat): Row
    requires i < TASKS
  {
    match i
    case 0 => Row(DialDisable, EvDialStart, StartUp)
    case 1 => Row(DialDisable, EvEthUp, EthUp)
    case 2 => Row(DialDisable, EvEthDown, EthDown)
    case 3 => Row(DialDisable, EvEthDisable, EthDialDisable)
    case 4 => Row(StartUp, EvDialStart, Dialing)
    case 5 => Row(StartUp, EvEthUp, EthUp)
    case 6 => Row(StartUp, EvEthDown, Dialing)
    case 7 => Row(StartUp, EvDialDisable, DialDisable)
    case 8 => Row(StartUp, EvEthDisable, Dialing)
    case 9 => Row(Dialing, EvDialDown, StartUp)
    case 10 => Row(Dialing, EvDialOtherError, DialOtherError)
    case 11 => Row(Dialing, EvDialModemError, DialModemError)
    case 12 => Row(Dialing, EvDialNoSim, DialNoSim)
    case 13 => Row(Dialing, EvDialUp, DialUp)
    case 14 => Row(Dialing, EvEthUp, EthUp)
    case 15 => Row(Dialing, EvEthDown, Dialing)
    case 16 => Row(Dialing, EvDialDisable, DialDisable)
    case 17 => Row(Dialing, EvEthDisable, StartUp)
    case 18 => Row(DialOtherError, EvDialDown, StartUp)
    case 19 => Row(DialOtherError, EvDialStart, Dialing)
    case 20 => Row(DialOtherError, EvDialModemError, DialModemError)
    case 21 => Row(DialOtherError, EvDialNoSim, DialNoSim)
    case 22 => Row(DialOtherError, EvEthUp, EthUp)
    case 23 => Row(DialOtherError, EvEthDown, DialOtherError)
    case 24 => Row(DialModemError, EvDialDisable, DialDisable)
    case 25 => Row(DialOtherError, EvEthDisable, DialOtherError)
    case 26 => Row(DialModemError, EvDialDown, StartUp)
    case 27 => Row(DialModemError, EvDialStart, Dialing)
    case 28 => Row(DialModemError, EvDialOtherError, DialOtherError)
    case 29 => Row(DialModemError, EvDialNoSim, DialNoSim)
    case 30 => Row(DialModemError, EvEthUp, EthUp)
    case 31 => Row(DialModemError, EvEthDown, DialModemError)
    case 32 => Row(DialModemError, EvDialDisable, DialDisable)
    case 33 => Row(DialModemError, EvEthDisable, DialModemError)
    case 34 => Row(DialNoSim, EvDialDown, StartUp)
    case 35 => Row(DialNoSim, EvDialStart, Dialing)
    case 36 => Row(DialNoSim, EvDialModemError, DialModemError)
    case 37 => Row(DialNoSim, EvDialOtherError, DialOtherError)
    case 38 => Row(DialNoSim, EvEthUp, EthUp)
    case 39 => Row(DialNoSim, EvEthDown, DialNoSim)
    case 40 => Row(DialNoSim, EvDialDisable, DialDisable)
    case 41 => Row(DialNoSim, EvEthDisable, DialNoSim)
    case 42 => Row(DialUp, EvDialDown, StartUp)
    case 43 => Row(DialUp, EvDialStart, Dialing)
    case 44 => Row(DialUp, EvDialModemError, DialModemError)
    case 45 => Row(DialUp, EvDialOtherError, DialOtherError)
    case 46 => Row(DialUp, EvEthUp, EthDialUp)
    case 47 => Row(DialUp, EvEthDown, DialUp)
    case 48 => Row(DialUp, EvDialDisable, DialDisable)
    case 49 => Row(DialUp, EvEthDisable, DialUp)
    case 50 => Row(EthUp, EvEthDown, EthDown)
    case 51 => Row(EthUp, EvDialUp, EthDialUp)
    case 52 => Row(EthUp, EvDialDisable, EthUp)
    case 53 => Row(EthUp, EvEthDisable, EthDisable)
    case 54 => Row(EthDialUp, EvEthDown, DialUp)
    case 55 => Row(EthDialUp, EvDialStart, EthUp)
    case 56 => Row(EthDialUp, EvDialOtherError, EthUp)
    case 57 => Row(EthDialUp, EvDialModemError, EthUp)
    case 58 => Row(EthDialUp, EvDialNoSim, EthUp)
    case 59 => Row(EthDialUp, EvDialDisable, EthUp)
    case 60 => Row(EthDialUp, EvEthDisable, DialUp)
    case 61 => Row(EthDown, EvEthUp, EthUp)
    case 62 => Row(EthDown, EvDialStart, Dialing)
    case 63 => Row(EthDown, EvDialOtherError, DialOtherError)
    case 64 => Row(EthDown, EvDialModemError, DialModemError)
    case 65 => Row(EthDown, EvDialNoSim, DialNoSim)
    case 66 => Row(EthDown, EvDialUp, DialUp)
    case 67 => Row(EthDown, EvDialDisable, DialDisable)
    case 68 => Row(EthDown, EvEthDisable, EthDisable)
    case 69 => Row(EthDisable, EvDialDisable, EthDialDisable)
    case 70 => Row(EthDisable, EvDialStart, StartUp)
    case 71 => Row(EthDisable, EvDialUp, DialUp)
    case 72 => Row(EthDisable, EvEthUp, EthUp)
    case 73 => Row(EthDialDisable, EvEthUp, EthUp)
    case _ => Row(EthDialDisable, EvDialStart, StartUp)
  }

  function Ir8Handler(i: nat): Handler
    requires i < HANDLERS
  {
    match i
    case 0 => Handler(DialDisable, Off, Off, Off)
    case 1 => Handler(StartUp, Off, Off, On)
    case 2 => Handler(Dialing, Off, Flash, Off)
    case 3 => Handler(DialOtherError, Off, Off, FlashFast)
    case 4 => Handler(DialModemError, Off, Off, FlashFast)
    case 5 => Handler(DialNoSim, Off, Off, FlashFast)
    case 6 => Handler(EthDisable, Off, Off, Off)
    case 7 => Handler(DialUp, Off, On, Off)
    case 8 => Handler(EthUp, On, Off, Off)
    case 9 => Handler(EthDialUp, On, Off, Off)
    case 10 => Handler(EthDown, Off, Off, FlashFast)
    case _ => Handler(EthDialDisable, Off, Off, Off)
  }

  function Er6Handler(i: nat): Handler
    requires i < HANDLERS
  {
    match i
    case 0 => Handler(DialDisable, Off, Off, Off)
    case 1 => Handler(StartUp, Off, Off, On)
    case 2 => Handler(Dialing, Off, Off, Flash)
    case 3 => Handler(DialOtherError, Off, Off, FlashFast)
    case 4 => Handler(DialModemError, Off, Off, FlashFast)
    case 5 => Handler(DialNoSim, Off, Off, FlashFast)
    case 6 => Handler(DialUp, Off, On, Off)
    case 7 => Handler(EthDisable, Off, Off, Off)
    case 8 => Handler(EthUp, On, Off, Off)
    case 9 => Handler(EthDialUp, On, Off, Off)
    case 10 => Handler(EthDown, Off, Off, FlashFast)
    case _ => Handler(EthDialDisable, Off, Off, Off)
  }

  function HandlerAt(er6: bool, i: nat): Handler
    requires i < HANDLERS
  {
    if er6 then Er6Handler(i) else Ir8Handler(i)
  }

  predicate EthernetUp(s: State) {
    s == EthUp || s == EthDialUp
  }

  // A line for a state and an event, where there is one that changes the state.
  function TaskFor(s: State, e: Event): (i: nat)
    ensures i < TASKS
  {
    match s
    case DialDisable =>
      if e == EvDialStart then 0 else if e == EvEthUp then 1 else if e == EvEthDown then 2 else 3
    case StartUp =>
      if e == EvDialStart then 4 else if e == EvEthUp then 5 else if e == EvEthDown then 6
      else if e == EvDialDisable then 7 else 8
    case Dialing =>
      if e == EvDialDown then 9 else if e == EvDialOtherError then 10 else if e == EvDialModemError then 11
      else if e == EvDialNoSim then 12 else if e == EvDialUp then 13 else if e == EvEthUp then 14
      else if e == EvDialDisable then 16 else 17
    case DialOtherError =>
      if e == EvDialDown then 18 else if e == EvDialStart then 19 else if e == EvDialModemError then 20
      else if e == EvDialNoSim then 21 else 22
    case DialModemError =>
      if e == EvDialDisable then 24 else if e == EvDialDown then 26 else if e == EvDialStart then 27
      else if e == EvDialOtherError then 28 else if e == EvDialNoSim then 29 else 30
    case DialNoSim =>
      if e == EvDialDown then 34 else if e == EvDialStart then 35 else if e == EvDialModemError then 36
      else if e == EvDialOtherError then 37 else if e == EvEthUp then 38 else 40
    case DialUp =>
      if e == EvDialDown then 42 else if e == EvDialStart then 43 else if e == EvDialModemError then 44
      else if e == EvDialOtherError then 45 else if e == EvEthUp then 46 else 48
    case EthUp =>
      if e == EvEthDown then 50 else if e == EvDialUp then 51 else 53
    case EthDialUp =>
      if e == EvEthDown then 54 else if e == EvDialStart then 55 else if e == EvDialOtherError then 56
      else if e == EvDialModemError then 57 else if e == EvDialNoSim then 58 else if e == EvDialDisable then 59 else 60
    case EthDown =>
      if e == EvEthUp then 61 else if e == EvDialStart then 62 else if e == EvDialOtherError then 63
      else if e == EvDialModemError then 64 else if e == EvDialNoSim then 65 else if e == EvDialUp then 66
      else if e == EvDialDisable then 67 else 68
    case EthDisable =>
      if e == EvDialDisable then 69 else if e == EvDialStart then 70 else if e == EvDialUp then 71 else 72
    case EthDialDisable =>
      if e == EvEthUp then 73 else 74
  }

  // The line of each state in the two handler tables.
  function HandlerIndex(er6: bool, s: State): (i: nat)
    ensures i < HANDLERS && HandlerAt(er6, i).state == s
  {
    match s
    case DialDisable => 0
    case StartUp => 1
    case DialOtherError => 3
    case DialModemError => 4
    case DialNoSim => 5
    case Dialing => 2
    case DialUp => if er6 then 6 else 7
    case EthDisable => if er6 then 7 else 6
    case EthUp => 8
    case EthDialUp => 9
    case EthDown => 10
    case _ => 11
  }

  lemma OneHandler(er6: bool, i: nat)
    requires i < HANDLERS
    ensures i == HandlerIndex(er6, HandlerAt(er6, i).state)
    ensures HandlerAt(er6, i).first == if EthernetUp(HandlerAt(er6, i).state) then On else Off
  {
  }

  // ---------- One event ----------

  // The first line from i on that fits decides.
  function FirstTask(s: State, e: Event, i: nat): Option<State>
    requires i <= TASKS
    decreases TASKS - i
  {
    if i == TASKS then None
    else if Task(i).state == s && Task(i).event == e then Some(Task(i).next)
    else FirstTask(s, e, i + 1)
  }

  datatype Lights = Lights(first: Action, green: Action, red: Action)

  function LightsOf(er6: bool, s: State): Lights {
    var h := HandlerAt(er6, HandlerIndex(er6, s));
    Lights(h.first, h.green, h.red)
  }

  // A state that no line fits stays.
  function NextState(s: State, e: Event): State {
    var n := FirstTask(s, e, 0);
    if n.Some? then n.value else s
  }

  // The state file, empty at power-up, and the lights.
  datatype Machine = Machine(file: Option<State>, lights: Lights)

  function Step(er6: bool, m: Machine, e: Event): Machine {
    var s := if m.file.Some? then m.file.value else StartUp;
    var next := FirstTask(s, e, 0);
    if next.Some? then Machine(next, LightsOf(er6, next.value))
    else if m.file.None? then Machine(Some(s), LightsOf(er6, s))
    else m
  }

  class LedPanel {
    const er6: bool
    var file: Option<State>
    var first: Action
    var green: Action
    var red: Action

    constructor (er6: bool, first: Action, green: Action, red: Action)
      ensures this.er6 == er6 && Contents() == Machine(None, Lights(first, green, red))
    {
      this.er6, file := er6, None;
      this.first, this.green, this.red := first, green, red;
    }

    ghost function Contents(): Machine
      reads this
    {
      Machine(file, Lights(first, green, red))
    }

    // ledcon_by_event.
    method LedconByEvent(e: Event)
      modifies this
      ensures Contents() == Step(er6, old(Contents()), e)
    {
      hide Task, Ir8Handler, Er6Handler, HandlerIndex;
      var state, updated := StartUp, false;
      if file.Some? {
        state := file.value;
      } else {
        updated := true;
      }
      ghost var from := state;
      var i := 0;
      while i < TASKS
        invariant 0 <= i <= TASKS && FirstTask(from, e, 0) == FirstTask(from, e, i)
      {
        if Task(i).state == state && Task(i).event == e {
          break;
        }
        i := i + 1;
      }
      if i < TASKS {
        state, updated := Task(i).next, true;
      }
      if updated {
        file := Some(state);
        ShowState(state);
      }
    }

    // The handler lines of the state, each first switching the lights off.
    method ShowState(state: State)
      modifies this`first, this`green, this`red
      ensures Lights(first, green, red) == LightsOf(er6, state)
    {
      hide Ir8Handler, Er6Handler, HandlerIndex;
      for i := 0 to HANDLERS
        invariant i > HandlerIndex(er6, state) ==> Lights(first, green, red) == LightsOf(er6, state)
      {
        OneHandler(er6, i);
        var h := HandlerAt(er6, i);
        if h.state == state {
          red, green, first := Off, Off, Off;
          first := h.first;
          green := h.green;
          red := h.red;
        }
      }
    }
  }

  // ---------- Runs ----------

  // Ethernet counts as up after an EthUp event and down after the other two.
  function Tells(was: bool, e: Event): bool {
    if e == EvEthUp then true else if e == EvEthDown || e == EvEthDisable then false else was
  }

  // The table read by event: what every event makes of every state. A table line that is missing
  // leaves the state alone, so a dial that ends while Ethernet is up goes unnoticed, and so does
  // switching dialling off after an error that is none of the modem or the card.
  function Becomes(s: State, e: Event): State {
    match e
    case EvEthUp => if s == DialUp || s == EthDialUp then EthDialUp else EthUp
    case EvEthDown =>
      if s == DialDisable || s == EthUp then EthDown
      else if s == StartUp then Dialing else if s == EthDialUp then DialUp else s
    case EvEthDisable =>
      if s == EthUp || s == EthDown then EthDisable else if s == EthDialUp then DialUp
      else if s == DialDisable then EthDialDisable
      else if s == StartUp then Dialing else if s == Dialing then StartUp else s
    case EvDialUp =>
      if s == EthUp then EthDialUp else if s == Dialing || s == EthDown || s == EthDisable then DialUp else s
    case EvDialDown =>
      if s == Dialing || s == DialOtherError || s == DialModemError || s == DialNoSim || s == DialUp then StartUp else s
    case EvDialStart =>
      if s == DialDisable || s == EthDisable || s == EthDialDisable then StartUp
      else if EthernetUp(s) then EthUp else Dialing
    case EvDialDisable =>
      if EthernetUp(s) then EthUp else if s == EthDisable || s == EthDialDisable then EthDialDisable
      else if s == DialOtherError then DialOtherError else DialDisable
    case EvDialOtherError =>
      if s == Dialing || s == DialModemError || s == DialNoSim || s == DialUp || s == EthDown then DialOtherError
      else if s == EthDialUp then EthUp else s
    case EvDialModemError =>
      if s == Dialing || s == DialOtherError || s == DialNoSim || s == DialUp || s == EthDown then DialModemError
      else if s == EthDialUp then EthUp else s
    case EvDialNoSim =>
      if s == Dialing || s == DialOtherError || s == DialModemError || s == EthDown then DialNoSim
      else if s == EthDialUp then EthUp else s
  }

  lemma RowBecomes(i: nat)
    requires i < TASKS
    ensures Becomes(Task(i).state, Task(i).event) == Task(i).next
  {
    hide Becomes, Task;
    if i < 18 {
      RowBecomes0(i);
    } else if i < 34 {
      RowBecomes1(i);
    } else if i < 50 {
      RowBecomes2(i);
    } else if i < 62 {
      RowBecomes3(i);
    } else {
      RowBecomes4(i);
    }
  }

  lemma RowBecomes0(i: nat)
    requires i < 18
    ensures Becomes(Task(i).state, Task(i).event) == Task(i).next
  {
  }

  lemma RowBecomes1(i: nat)
    requires 18 <= i < 34
    ensures Becomes(Task(i).state, Task(i).event) == Task(i).next
  {
  }

  lemma RowBecomes2(i: nat)
    requires 34 <= i < 50
    ensures Becomes(Task(i).state, Task(i).event) == Task(i).next
  {
  }

  lemma RowBecomes3(i: nat)
    requires 50 <= i < 62
    ensures Becomes(Task(i).state, Task(i).event) == Task(i).next
  {
  }

  lemma RowBecomes4(i: nat)
    requires 62 <= i < TASKS
    ensures Becomes(Task(i).state, Task(i).event) == Task(i).next
  {
  }

  // No line goes against what its event tells.
  lemma TaskTells(i: nat)
    requires i < TASKS
    ensures EthernetUp(Task(i).next) <==> Tells(EthernetUp(Task(i).state), Task(i).event)
  {
    hide Task;
    RowBecomes(i);
  }

  predicate HasRow(s: State, e: Event) {
    Becomes(s, e) != s ==> Task(TaskFor(s, e)).state == s && Task(TaskFor(s, e)).event == e
  }

  lemma RowOf(s: State, e: Event)
    ensures HasRow(s, e)
  {
    hide HasRow;
    match s {
      case DialDisable => RowsOfFirst(s, e);
      case StartUp => RowsOfFirst(s, e);
      case Dialing => RowsOfFirst(s, e);
      case DialUp => RowsOfErrors(s, e);
      case DialOtherError => RowsOfErrors(s, e);
      case DialModemError => RowsOfErrors(s, e);
      case DialNoSim => RowsOfErrors(s, e);
      case EthUp => RowsOfUp(s, e);
      case EthDialUp => RowsOfUp(s, e);
      case EthDown => RowsOfDown(e);
      case _ => RowsOfDisabled(s, e);
    }
  }

  lemma RowsOfFirst(s: State, e: Event)
    requires s == DialDisable || s == StartUp || s == Dialing
    ensures HasRow(s, e)
  {
  }

  lemma RowsOfErrors(s: State, e: Event)
    requires s == DialOtherError || s == DialModemError || s == DialNoSim || s == DialUp
    ensures HasRow(s, e)
  {
  }

  lemma RowsOfUp(s: State, e: Event)
    requires s == EthUp || s == EthDialUp
    ensures HasRow(s, e)
  {
  }

  lemma RowsOfDown(e: Event)
    ensures HasRow(EthDown, e)
  {
  }

  lemma RowsOfDisabled(s: State, e: Event)
    requires s == EthDisable || s == EthDialDisable
    ensures HasRow(s, e)
  {
    hide HasRow;
    if s == EthDisable {
      RowsOfEthDisabled(e);
    } else {
      RowsOfBothDisabled(e);
    }
  }

  lemma RowsOfEthDisabled(e: Event)
    ensures HasRow(EthDisable, e)
  {
  }

  lemma RowsOfBothDisabled(e: Event)
    ensures HasRow(EthDialDisable, e)
  {
  }

  lemma {:induction false} FirstTaskBecomes(s: State, e: Event, i: nat)
    requires i <= TASKS
    ensures FirstTask(s, e, i).Some? ==> FirstTask(s, e, i).value == Becomes(s, e)
    ensures FirstTask(s, e, i).None? ==> forall k | i <= k < TASKS :: Task(k).state != s || Task(k).event != e
    decreases TASKS - i
  {
    hide Task, Becomes;
    if i < TASKS {
      RowBecomes(i);
      FirstTaskBecomes(s, e, i + 1);
    }
  }

  lemma NextBecomes(s: State, e: Event)
    ensures NextState(s, e) == Becomes(s, e)
  {
    hide Task, Becomes, TaskFor;
    FirstTaskBecomes(s, e, 0);
    RowOf(s, e);
  }

  lemma EventMeans(s: State, e: Event)
    ensures NextState(s, e) ==
      match e
      case EvEthUp => if s == DialUp || s == EthDialUp then EthDialUp else EthUp
      case EvEthDown =>
        if s == DialDisable || s == EthUp then EthDown
        else if s == StartUp then Dialing else if s == EthDialUp then DialUp else s
      case EvEthDisable =>
        if s == EthUp || s == EthDown then EthDisable else if s == EthDialUp then DialUp
        else if s == DialDisable then EthDialDisable
        else if s == StartUp then Dialing else if s == Dialing then StartUp else s
      case EvDialUp =>
        if s == EthUp then EthDialUp else if s == Dialing || s == EthDown || s == EthDisable then DialUp else s
      case EvDialDown =>
        if s == Dialing || s == DialOtherError || s == DialModemError || s == DialNoSim || s == DialUp then StartUp
        else s
      case EvDialStart =>
        if s == DialDisable || s == EthDisable || s == EthDialDisable then StartUp
        else if EthernetUp(s) then EthUp else Dialing
      case EvDialDisable =>
        if EthernetUp(s) then EthUp else if s == EthDisable || s == EthDialDisable then EthDialDisable
        else if s == DialOtherError then DialOtherError else DialDisable
      case EvDialOtherError =>
        if s == Dialing || s == DialModemError || s == DialNoSim || s == DialUp || s == EthDown then DialOtherError
        else if s == EthDialUp then EthUp else s
      case EvDialModemError =>
        if s == Dialing || s == DialOtherError || s == DialNoSim || s == DialUp || s == EthDown then DialModemError
        else if s == EthDialUp then EthUp else s
      case EvDialNoSim =>
        if s == Dialing || s == DialOtherError || s == DialModemError || s == EthDown then DialNoSim
        else if s == EthDialUp then EthUp else s
  {
    hide NextState;
    NextBecomes(s, e);
  }

  // What each light shows in each state.
  lemma LightsMean(er6: bool, s: State)
    ensures var l := LightsOf(er6, s);
      && l.first == (if s == EthUp || s == EthDialUp then On else Off)
      && l.green == (if s == DialUp then On else if s == Dialing && !er6 then Flash else Off)
      && l.red == (if s == DialOtherError || s == DialModemError || s == DialNoSim || s == EthDown then FlashFast
                   else if s == StartUp then On else if s == Dialing && er6 then Flash else Off)
  {
  }

  function StepAll(er6: bool, m: Machine, es: seq<Event>): Machine {
    if es == [] then m else Step(er6, StepAll(er6, m, es[..|es| - 1]), es[|es| - 1])
  }

  // Whether the most recent Ethernet event was EthUp.
  function LastEthernet(es: seq<Event>): bool {
    if es == [] then false else Tells(LastEthernet(es[..|es| - 1]), es[|es| - 1])
  }

  // After any events from power-up the state shows Ethernet up exactly when the last Ethernet event
  // said so, the lights are those of the state, and the first light is on exactly then.
  lemma {:induction false} RunShowsEthernet(er6: bool, lights: Lights, es: seq<Event>)
    requires es != []
    ensures var m := StepAll(er6, Machine(None, lights), es);
      && m.file.Some? && (EthernetUp(m.file.value) <==> LastEthernet(es))
      && m.lights == LightsOf(er6, m.file.value)
      && m.lights.first == (if LastEthernet(es) then On else Off)
  {
    hide LightsOf, FirstTask;
    var front, e := es[..|es| - 1], es[|es| - 1];
    var m := StepAll(er6, Machine(None, lights), front);
    if front != [] {
      RunShowsEthernet(er6, lights, front);
    }
    var s := if m.file.Some? then m.file.value else StartUp;
    EventMeans(s, e);
    LightsMean(er6, NextState(s, e));
  }

  // The state before event i of a run.
  function StateAt(er6: bool, lights: Lights, es: seq<Event>, i: nat): State
    requires i <= |es|
  {
    var m := StepAll(er6, Machine(None, lights), es[..i]);
    if m.file.Some? then m.file.value else StartUp
  }

  // An event that does not end a dialled connection: starting, switching off and failing end it, a
  // missing card only while Ethernet is up, and the connection going down only while it is not.
  predicate Survives(before: seq<Event>, e: Event) {
    && e != EvDialStart && e != EvDialDisable && e != EvDialOtherError && e != EvDialModemError
    && (e == EvDialNoSim ==> !LastEthernet(before))
    && (e == EvDialDown ==> LastEthernet(before))
  }

  predicate TakesDial(s: State) {
    s == Dialing || s == DialUp || s == EthDown || s == EthDisable || s == EthUp || s == EthDialUp
  }

  // A dial-up event at i that the state takes, and no later event that ends the connection.
  ghost predicate DialStands(er6: bool, lights: Lights, es: seq<Event>, i: nat) {
    && i < |es| && es[i] == EvDialUp
    && TakesDial(StateAt(er6, lights, es, i))
    && forall j | i < j < |es| :: Survives(es[..j], es[j])
  }

  lemma {:induction false} DialIsUpExactly(er6: bool, lights: Lights, es: seq<Event>)
    ensures StateAt(er6, lights, es, |es|) == DialUp || StateAt(er6, lights, es, |es|) == EthDialUp
      <==> exists i: nat :: DialStands(er6, lights, es, i)
  {
    hide StepAll, LastEthernet, StateAt, Survives;
    if es == [] {
      AtPowerUp(er6, lights, es);
    } else {
      var front, k := es[..|es| - 1], |es| - 1;
      DialIsUpExactly(er6, lights, front);
      StateStep(er6, lights, es);
      DialStep(er6, lights, es);
      forall i: nat | i < k
        ensures DialStands(er6, lights, es, i) <==> DialStands(er6, lights, front, i) && Survives(front, es[k])
      {
        StandsInFront(er6, lights, es, i);
      }
      assert DialStands(er6, lights, es, k) <==> es[k] == EvDialUp && TakesDial(StateAt(er6, lights, es, k));
    }
  }

  // One event: the connection stands when it is taken now, or stood and survives.
  lemma DialStep(er6: bool, lights: Lights, es: seq<Event>)
    requires es != []
    ensures var k := |es| - 1;
      var s, now := StateAt(er6, lights, es, k), StateAt(er6, lights, es, |es|);
      (now == DialUp || now == EthDialUp) <==>
        (es[k] == EvDialUp && TakesDial(s)) || ((s == DialUp || s == EthDialUp) && Survives(es[..k], es[k]))
  {
    hide StateAt, LastEthernet, NextState;
    var k := |es| - 1;
    StateStep(er6, lights, es);
    EventMeans(StateAt(er6, lights, es, k), es[k]);
    StateSaysEthernet(er6, lights, es, k);
  }

  lemma AtPowerUp(er6: bool, lights: Lights, es: seq<Event>)
    requires es == []
    ensures StateAt(er6, lights, es, 0) == StartUp
  {
  }

  lemma StateStep(er6: bool, lights: Lights, es: seq<Event>)
    requires es != []
    ensures var k := |es| - 1;
      && StateAt(er6, lights, es, |es|) == NextState(StateAt(er6, lights, es, k), es[k])
      && StateAt(er6, lights, es, k) == StateAt(er6, lights, es[..k], |es[..k]|)
  {
    hide LightsOf, FirstTask;
    var k := |es| - 1;
    assert es[..|es|] == es && es[..k][..|es[..k]|] == es[..k];
  }

  lemma StateSaysEthernet(er6: bool, lights: Lights, es: seq<Event>, k: nat)
    requires k <= |es|
    ensures EthernetUp(StateAt(er6, lights, es, k)) <==> LastEthernet(es[..k])
  {
    hide LightsOf;
    if k > 0 {
      RunShowsEthernet(er6, lights, es[..k]);
    }
  }

  lemma StandsInFront(er6: bool, lights: Lights, es: seq<Event>, i: nat)
    requires es != [] && i < |es| - 1
    ensures var k := |es| - 1;
      DialStands(er6, lights, es, i) <==> DialStands(er6, lights, es[..k], i) && Survives(es[..k], es[k])
  {
    hide StepAll, Survives;
    var front := es[..|es| - 1];
    assert forall j | 0 <= j <= |front| :: front[..j] == es[..j];
  }

  // After any events the green light is on exactly when the dialled connection stands and Ethernet is
  // not up.
  lemma RunShowsDial(er6: bool, lights: Lights, es: seq<Event>)
    requires es != []
    ensures var m := StepAll(er6, Machine(None, lights), es);
      m.lights.green == On <==> !LastEthernet(es) && exists i: nat :: DialStands(er6, lights, es, i)
  {
    hide LightsOf, StepAll, DialStands, LastEthernet;
    assert es[..|es|] == es;
    RunShowsEthernet(er6, lights, es);
    DialIsUpExactly(er6, lights, es);
    LightsMean(er6, StepAll(er6, Machine(None, lights), es).file.value);
  }

  // An EthUp event at i that no other Ethernet event follows.
  ghost predicate StandsUp(es: seq<Event>, i: nat) {
    i < |es| && es[i] == EvEthUp && forall j | i < j < |es| :: es[j] != EvEthDown && es[j] != EvEthDisable
  }

  lemma {:induction false} LastEthernetMeans(es: seq<Event>)
    ensures LastEthernet(es) <==> exists i: nat :: StandsUp(es, i)
  {
    if es != [] {
      var front, k := es[..|es| - 1], |es| - 1;
      LastEthernetMeans(front);
      assert es[k] == EvEthUp ==> StandsUp(es, k);
      if es[k] != EvEthUp && es[k] != EvEthDown && es[k] != EvEthDisable {
        forall i: nat ensures StandsUp(front, i) <==> StandsUp(es, i) {
        }
      }
      if i: nat :| StandsUp(es, i) {
        assert i == k || (es[k] != EvEthDown && es[k] != EvEthDisable);
      }
    }
  }
}
