/** The application of the tui front end (tui/src/app.rs): the window of
    recent executions, the selected row, the column widths, the debug line,
    and the event loop that applies events one at a time. */
module TuiApp {
  import opened Wrappers
  import opened Text
  import opened Store
  import opened Terminal
  import Feeder
  import opened TuiMain

  /** Events the application sends to itself or receives from the feeder. */
  datatype AppEvent = NewProcess(process: ProcessExecution) | Print(msg: string) | Quit

  /** What `events.next()` yields: a tick, a terminal event, or an application event. */
  datatype Event = Tick | Crossterm(event: TerminalEvent) | App(app: AppEvent)

  /** `LongestItenLens`: one width per table column. */
  datatype ColumnWidths = ColumnWidths(timestamp: nat, username: nat, pid: nat, ppid: nat, comm: nat, args: nat)

  /** The widths before any execution has arrived. */
  const DefaultWidths := ColumnWidths(18, 10, 15, 20, 15, 20)

  /** The foreign functions the application calls: printing a timestamp,
      the display width of a string, and the `{:?}` text of the process
      service's answer for a pid. */
  datatype Env = Env(showTime: Feeder.DateTime -> string, width: string -> nat, inspect: nat -> string)

  // ---------------------------------------------------------------------------
  // Column widths
  // ---------------------------------------------------------------------------

  function TimeWidth(p: ProcessExecution, env: Env): nat { env.width(env.showTime(p.timestamp)) }
  function UserWidth(p: ProcessExecution, env: Env): nat { env.width(p.username.GetOr("")) }
  function CommWidth(p: ProcessExecution, env: Env): nat { env.width(p.comm) }
  function ArgsWidth(p: ProcessExecution, env: Env): nat { env.width(p.args) }

  /** Every width of every execution fits in a `u16`. */
  predicate Fits16(items: seq<ProcessExecution>, env: Env) {
    forall i :: 0 <= i < |items| ==>
      TimeWidth(items[i], env) < 0x1_0000 && UserWidth(items[i], env) < 0x1_0000
      && CommWidth(items[i], env) < 0x1_0000 && ArgsWidth(items[i], env) < 0x1_0000
  }

  /** The columns are wide enough for the execution. */
  predicate Covers(w: ColumnWidths, p: ProcessExecution, env: Env) {
    TimeWidth(p, env) <= w.timestamp && UserWidth(p, env) <= w.username
    && CommWidth(p, env) <= w.comm && ArgsWidth(p, env) <= w.args
  }

  /** `constraint_len_calculator`: the pid and ppid columns are fixed at 6 and
      15; every other column is the widest entry's width, or 0 (1 for the
      user name) over no entries. */
  function ConstraintLens(items: seq<ProcessExecution>, env: Env): (w: ColumnWidths)
    ensures w.pid == 6 && w.ppid == 15
    ensures items == [] ==> w == ColumnWidths(0, 1, 6, 15, 0, 0)
  {
    ColumnWidths(
      ColumnWidth(items, p => TimeWidth(p, env), 0),
      ColumnWidth(items, p => UserWidth(p, env), 1),
      6,
      15,
      ColumnWidth(items, p => CommWidth(p, env), 0),
      ColumnWidth(items, p => ArgsWidth(p, env), 0))
  }

  /** When every width fits in a `u16`, each computed column is wide enough
      for every execution and exactly as wide as one of them. */
  lemma ConstraintLensIsMaximum(items: seq<ProcessExecution>, env: Env)
    requires Fits16(items, env)
    ensures forall i :: 0 <= i < |items| ==> Covers(ConstraintLens(items, env), items[i], env)
    ensures var w := ConstraintLens(items, env);
      items != [] ==>
      (exists i :: 0 <= i < |items| && TimeWidth(items[i], env) == w.timestamp)
      && (exists i :: 0 <= i < |items| && UserWidth(items[i], env) == w.username)
      && (exists i :: 0 <= i < |items| && CommWidth(items[i], env) == w.comm)
      && (exists i :: 0 <= i < |items| && ArgsWidth(items[i], env) == w.args)
  {
    ColumnWidthIsMaximum(items, p => TimeWidth(p, env), 0);
    ColumnWidthIsMaximum(items, p => UserWidth(p, env), 1);
    ColumnWidthIsMaximum(items, p => CommWidth(p, env), 0);
    ColumnWidthIsMaximum(items, p => ArgsWidth(p, env), 0);
  }

  /** The widths the application holds for a window: the defaults until the
      first execution arrives, then those of the window. */
  function Lens(items: seq<ProcessExecution>, env: Env): ColumnWidths {
    if items == [] then DefaultWidths else ConstraintLens(items, env)
  }

  // ---------------------------------------------------------------------------
  // The application state and its transitions
  // ---------------------------------------------------------------------------

  /** The modelled fields of `App`; `queue` is what the event channel holds. */
  datatype State = State(
    running: bool,
    processes: seq<ProcessExecution>,
    selected: Option<nat>,
    scroll: nat,
    lens: ColumnWidths,
    debugMessage: string,
    queue: seq<Event>)

  /** `App::default`: running, no executions, row 0 selected. */
  function Initial(): State {
    State(true, [], Some(0), 0, DefaultWidths, "", [])
  }

  /** A selection points at a row (row 0 while there is none) and the
      scroll position is that row's. */
  predicate CursorInv(s: State) {
    s.selected.Some? ==> CursorValid(s.selected, |s.processes|) && s.scroll == ScrollPosition(s.selected)
  }

  /** What the application keeps true between events: at most `MaxItems`
      executions, the cursor on a row, and the widths of the window. */
  predicate Inv(s: State, env: Env) {
    |s.processes| <= MaxItems && CursorInv(s) && s.lens == Lens(s.processes, env)
  }

  /** `add_process`: push into the bounded window, then recompute the widths. */
  function AddedProcess(s: State, p: ProcessExecution, env: Env): State {
    var processes := Pushed(s.processes, p);
    s.(processes := processes, lens := ConstraintLens(processes, env))
  }

  /** Select a row and scroll to it. */
  function SelectRow(s: State, sel: Option<nat>): State {
    s.(selected := sel, scroll := ScrollPosition(sel))
  }

  /** The debug line for an execution: the process service's view of its
      pid, then of its ppid. */
  function InspectMessage(p: ProcessExecution, env: Env): string {
    "pid: " + env.inspect(p.pid) + "\n ppid: " + env.inspect(p.ppid)
  }

  /** Enter as written: the selected index is looked up with `get(i).unwrap()`,
      which panics when the window has no such row. */
  function EnterAsWritten(s: State, env: Env): Outcome<State> {
    match s.selected
    case None => Ok(s)
    case Some(i) =>
      if i < |s.processes| then Ok(s.(debugMessage := InspectMessage(s.processes[i], env)))
      else Panic
  }

  /** As written, and reached without a draw in between: the application
      starts with row 0 selected and no executions, so Enter pressed before
      the first execution arrives panics. */
  lemma EnterOnEmptyWindowPanics(env: Env)
    ensures EnterAsWritten(Initial(), env) == Panic
  {
  }

  /** Once the draw has reconciled the selection with the rows, Enter never
      panics, and it agrees with the guarded `Entered`. */
  lemma DrawnEnterDoesNotPanic(s: State, env: Env)
    ensures EnterAsWritten(Drawn(s), env) == Ok(Entered(Drawn(s), env))
  {
  }

  /** Enter with the lookup guarded: a selection without a row does nothing;
      otherwise the debug line describes the selected execution. Nothing but
      the debug line ever changes. */
  function Entered(s: State, env: Env): (r: State)
    ensures EnterAsWritten(s, env).Ok? ==> r == EnterAsWritten(s, env).value
    ensures r == s.(debugMessage := r.debugMessage)
    ensures s.selected.Some? && s.selected.value < |s.processes| ==>
      r.debugMessage == InspectMessage(s.processes[s.selected.value], env)
  {
    match s.selected
    case None => s
    case Some(i) =>
      if i < |s.processes| then s.(debugMessage := InspectMessage(s.processes[i], env))
      else s
  }

  /** `handle_key_event`: a quit key sends `Quit` to the back of the event
      channel rather than stopping at once; column moves change only
      presentation state that is not modelled. */
  function OnKey(s: State, k: KeyEvent, env: Env): State {
    match Action(k)
    case RequestQuit => s.(queue := s.queue + [App(Quit)])
    case RowDown => SelectRow(s, NextRow(s.selected, |s.processes|))
    case RowUp => SelectRow(s, PreviousRow(s.selected, |s.processes|))
    case ColumnRight => s
    case ColumnLeft => s
    case Inspect => Entered(s, env)
    case NoAction => s
  }

  /** `handle_events` for one event already taken off the channel. */
  function OnEvent(s: State, e: Event, env: Env): State {
    match e
    case Tick => s
    case Crossterm(Key(k)) => OnKey(s, k, env)
    case Crossterm(NonKey) => s
    case App(NewProcess(p)) => AddedProcess(s, p, env)
    case App(Print(msg)) => s.(debugMessage := msg)
    case App(Quit) => s.(running := false)
  }

  /** What drawing the frame does to the state: the table render reconciles
      the selection with the rows (`DrawClamp`); nothing else changes. */
  function Drawn(s: State): State {
    s.(selected := DrawClamp(s.selected, |s.processes|))
  }

  /** `handle_events`: take the oldest event off the channel and apply it. */
  function HandleNext(s: State, env: Env): State
    requires s.queue != []
  {
    OnEvent(s.(queue := s.queue[1..]), s.queue[0], env)
  }

  /** One turn of `run`: draw, then handle the oldest pending event. */
  function Turn(s: State, env: Env): State
    requires s.queue != []
  {
    HandleNext(Drawn(s), env)
  }

  /** A quit key weighs 2, since handling it enqueues one `Quit`; every other event weighs 1. */
  function EventWeight(e: Event): nat {
    if e.Crossterm? && e.event.Key? && Action(e.event.key) == RequestQuit then 2 else 1
  }

  function Weight(q: seq<Event>): nat
    decreases |q|
  {
    if q == [] then 0 else EventWeight(q[0]) + Weight(q[1..])
  }

  lemma {:induction false} WeightAppend(a: seq<Event>, b: seq<Event>)
    ensures Weight(a + b) == Weight(a) + Weight(b)
    decreases |a|
  {
    if a == [] {
      assert a + b == b;
    } else {
      assert (a + b)[1..] == a[1..] + b;
      WeightAppend(a[1..], b);
    }
  }

  /** Every turn lightens the channel, so the loop over pending events ends. */
  lemma TurnLightens(s: State, env: Env)
    requires s.queue != []
    ensures Weight(Turn(s, env).queue) < Weight(s.queue)
  {
    var rest := s.queue[1..];
    var e := s.queue[0];
    if EventWeight(e) == 2 {
      WeightAppend(rest, [App(Quit)]);
      assert Weight([App(Quit)]) == 1 by {
        assert [App(Quit)][1..] == [];
      }
    } else {
      assert Turn(s, env).queue == rest;
    }
  }

  /** `run` with the events now pending: turns until the application stops
      or the channel is empty. */
  function Drain(s: State, env: Env): State
    decreases Weight(s.queue)
  {
    if !s.running || s.queue == [] then s
    else
      TurnLightens(s, env);
      Drain(Turn(s, env), env)
  }

  // ---------------------------------------------------------------------------
  // Properties of the transitions
  // ---------------------------------------------------------------------------

  /** The initial state keeps the invariant. */
  lemma InitialInv(env: Env)
    ensures Inv(Initial(), env)
  {
  }

  lemma AddedProcessKeepsInv(s: State, p: ProcessExecution, env: Env)
    requires Inv(s, env)
    ensures Inv(AddedProcess(s, p, env), env)
  {
    var t := AddedProcess(s, p, env);
    assert t.processes != [];
    assert t.lens == Lens(t.processes, env);
    assert CursorInv(t);
  }

  /** A key never changes the window or the widths. */
  lemma OnKeyFrame(s: State, k: KeyEvent, env: Env)
    ensures OnKey(s, k, env).processes == s.processes && OnKey(s, k, env).lens == s.lens
    ensures OnKey(s, k, env).running == s.running
  {
  }

  /** A key keeps the cursor on a row. */
  lemma OnKeyKeepsCursor(s: State, k: KeyEvent, env: Env)
    requires CursorInv(s)
    ensures CursorInv(OnKey(s, k, env))
  {
  }

  lemma OnKeyKeepsInv(s: State, k: KeyEvent, env: Env)
    requires Inv(s, env)
    ensures Inv(OnKey(s, k, env), env)
  {
    OnKeyFrame(s, k, env);
    OnKeyKeepsCursor(s, k, env);
  }

  /** Every event keeps the invariant. */
  lemma OnEventKeepsInv(s: State, e: Event, env: Env)
    requires Inv(s, env)
    ensures Inv(OnEvent(s, e, env), env)
  {
    match e {
      case App(NewProcess(p)) => AddedProcessKeepsInv(s, p, env);
      case Crossterm(Key(k)) => OnKeyKeepsInv(s, k, env);
      case Tick =>
      case Crossterm(NonKey) =>
      case App(Print(msg)) => assert OnEvent(s, e, env) == s.(debugMessage := msg);
      case App(Quit) => assert OnEvent(s, e, env) == s.(running := false);
    }
  }

  /** Drawing keeps the invariant, and on the empty window it leaves nothing selected. */
  lemma DrawnKeepsInv(s: State, env: Env)
    requires Inv(s, env)
    ensures Inv(Drawn(s), env)
    ensures s.processes == [] ==> Drawn(s).selected == None
    ensures s.processes != [] ==> Drawn(s).selected == s.selected
  {
  }

  /** On a drawn state each row move the model makes is the one `next_row`
      and `previous_row` make as written, and neither of those panics. */
  lemma DrawnRowMovesAsWritten(s: State, env: Env)
    requires Inv(s, env)
    ensures var d := Drawn(s); var n := |d.processes|;
      NextRowAsWritten(d.selected, n) == Ok(Store.NextRow(d.selected, n).value)
      && PreviousRowAsWritten(d.selected, n) == Ok(Store.PreviousRow(d.selected, n).value)
  {
    DrawnRowMovesDoNotPanic(s.selected, |s.processes|);
  }

  lemma HandleNextKeepsInv(s: State, env: Env)
    requires Inv(s, env) && s.queue != []
    ensures Inv(HandleNext(s, env), env)
  {
    OnEventKeepsInv(s.(queue := s.queue[1..]), s.queue[0], env);
  }

  lemma TurnKeepsInv(s: State, env: Env)
    requires Inv(s, env) && s.queue != []
    ensures Inv(Turn(s, env), env)
  {
    DrawnKeepsInv(s, env);
    HandleNextKeepsInv(Drawn(s), env);
  }

  /** Every turn of the loop keeps the invariant. */
  lemma {:induction false} DrainKeepsInv(s: State, env: Env)
    requires Inv(s, env)
    ensures Inv(Drain(s, env), env)
    decreases Weight(s.queue)
  {
    if s.running && s.queue != [] {
      TurnLightens(s, env);
      TurnKeepsInv(s, env);
      DrainKeepsInv(Turn(s, env), env);
    }
  }

  /** Only a `Quit` event stops the application; no key does it directly. */
  lemma OnlyQuitStops(s: State, e: Event, env: Env)
    requires s.running && !OnEvent(s, e, env).running
    ensures e == App(Quit)
  {
  }

  /** A quit key only enqueues `Quit`: the window, selection, widths and
      debug line are untouched and the application is still running. */
  lemma QuitKeyOnlyEnqueues(s: State, k: KeyEvent, env: Env)
    requires Action(k) == RequestQuit
    ensures OnKey(s, k, env) == s.(queue := s.queue + [App(Quit)])
  {
  }

  /** The widths always cover every execution in the window. */
  lemma LensCoversWindow(s: State, env: Env)
    requires Inv(s, env) && Fits16(s.processes, env)
    ensures forall i :: 0 <= i < |s.processes| ==> Covers(s.lens, s.processes[i], env)
  {
    ConstraintLensIsMaximum(s.processes, env);
  }

  /** A pending `Quit` at the front of the channel stops the loop at once,
      leaving everything behind it unread. */
  lemma QuitStopsDrain(s: State, env: Env)
    requires s.running && s.queue != [] && s.queue[0] == App(Quit)
    ensures Drain(s, env) == Drawn(s).(running := false, queue := s.queue[1..])
  {
    TurnLightens(s, env);
  }

  /** The events the feeder sends for the executions it parsed. */
  function Arrivals(ps: seq<ProcessExecution>): (q: seq<Event>)
    ensures |q| == |ps|
    decreases |ps|
  {
    if ps == [] then [] else [App(NewProcess(ps[0]))] + Arrivals(ps[1..])
  }

  /** An arriving execution is pushed into the window and nothing else changes but the widths. */
  lemma TurnOnArrival(s: State, p: ProcessExecution, env: Env)
    requires s.queue != [] && s.queue[0] == App(NewProcess(p))
    ensures Turn(s, env).running == s.running && Turn(s, env).queue == s.queue[1..]
    ensures Turn(s, env).processes == Pushed(s.processes, p)
  {
  }

  lemma {:induction false} DrainArrivalsPushes(s: State, ps: seq<ProcessExecution>, env: Env)
    requires s.running && s.queue == Arrivals(ps)
    ensures Drain(s, env).processes == PushAll(s.processes, ps)
    ensures Drain(s, env).running
    decreases |ps|
  {
    if ps == [] {
      assert Drain(s, env) == s;
    } else {
      var t := Turn(s, env);
      assert s.queue[1..] == Arrivals(ps[1..]);
      TurnOnArrival(s, ps[0], env);
      DrainArrivalsPushes(t, ps[1..], env);
      assert Drain(s, env) == Drain(t, env);
      assert PushAll(s.processes, ps) == PushAll(t.processes, ps[1..]);
    }
  }

  /** Executions arriving from the feeder leave the window holding the most
      recent `MaxItems` of everything received, in arrival order. */
  lemma ArrivalsKeepRecent(s: State, ps: seq<ProcessExecution>, env: Env)
    requires Inv(s, env) && s.running && s.queue == Arrivals(ps)
    ensures Drain(s, env).processes == Recent(s.processes + ps)
  {
    DrainArrivalsPushes(s, ps, env);
    PushAllKeepsRecent(s.processes, ps);
  }

  // ---------------------------------------------------------------------------
  // The application object
  // ---------------------------------------------------------------------------

  class App {
    var running: bool
    var processes: seq<ProcessExecution>
    var selected: Option<nat>
    var scroll: nat
    var lens: ColumnWidths
    var debugMessage: string
    /** The events waiting in the channel, oldest first. */
    var queue: seq<Event>
    const env: Env

    function Model(): State
      reads this
    {
      State(running, processes, selected, scroll, lens, debugMessage, queue)
    }

    predicate Valid()
      reads this
    {
      Inv(Model(), env)
    }

    /** `App::new`. */
    constructor(env: Env)
      ensures Model() == Initial() && this.env == env
      ensures Valid()
    {
      running := true;
      processes := [];
      selected := Some(0);
      scroll := 0;
      lens := DefaultWidths;
      debugMessage := "";
      queue := [];
      this.env := env;
    }

    method Quit()
      modifies this
      ensures Model() == old(Model()).(running := false)
    {
      running := false;
    }

    method PrintMsg(msg: string)
      modifies this
      ensures Model() == old(Model()).(debugMessage := msg)
    {
      debugMessage := msg;
    }

    method AddProcess(p: ProcessExecution)
      modifies this
      ensures Model() == AddedProcess(old(Model()), p, env)
    {
      if |processes| == MaxItems {
        processes := processes[1..];
      }
      processes := processes + [p];
      lens := ConstraintLens(processes, env);
    }

    method NextRow()
      requires selected.Some? ==> scroll == ScrollPosition(selected)
      modifies this
      ensures Model() == SelectRow(old(Model()), Store.NextRow(old(selected), old(|processes|)))
    {
      var i: nat;
      match selected {
        case None =>
          i := 0;
        case Some(j) =>
          if |processes| == 0 {
            return;
          } else if j >= |processes| - 1 {
            i := 0;
          } else {
            i := j + 1;
          }
      }
      selected := Some(i);
      scroll := i * ItemHeight;
    }

    method PreviousRow()
      requires selected.Some? ==> scroll == ScrollPosition(selected)
      modifies this
      ensures Model() == SelectRow(old(Model()), Store.PreviousRow(old(selected), old(|processes|)))
    {
      var i: nat;
      match selected {
        case None =>
          i := 0;
        case Some(j) =>
          if j == 0 {
            if |processes| == 0 {
              return;
            }
            i := |processes| - 1;
          } else {
            i := j - 1;
          }
      }
      selected := Some(i);
      scroll := i * ItemHeight;
    }

    /** The Enter arm of `handle_key_event`. */
    method ShowSelected()
      modifies this
      ensures Model() == Entered(old(Model()), env)
    {
      match selected {
        case None =>
        case Some(i) =>
          if i < |processes| {
            var p := processes[i];
            debugMessage := InspectMessage(p, env);
          }
      }
    }

    method HandleKeyEvent(k: KeyEvent)
      requires selected.Some? ==> scroll == ScrollPosition(selected)
      modifies this
      ensures Model() == OnKey(old(Model()), k, env)
    {
      match Action(k) {
        case RequestQuit =>
          queue := queue + [App(AppEvent.Quit)];
        case RowDown =>
          NextRow();
        case RowUp =>
          PreviousRow();
        case ColumnRight =>
        case ColumnLeft =>
        case Inspect =>
          ShowSelected();
        case NoAction =>
      }
    }

    /** `terminal.draw`: rendering the table reconciles its selection with
        the rows; nothing else that is modelled changes. */
    method Draw()
      modifies this
      ensures Model() == Drawn(old(Model()))
    {
      if |processes| == 0 {
        selected := None;
      } else if selected.Some? && selected.value >= |processes| {
        selected := Some(|processes| - 1);
      }
    }

    /** `handle_events`: `events.next()` blocks until an event is pending. */
    method HandleEvents()
      requires (selected.Some? ==> scroll == ScrollPosition(selected)) && queue != []
      modifies this
      ensures Model() == HandleNext(old(Model()), env)
    {
      var e := queue[0];
      queue := queue[1..];
      ghost var taken := Model();
      assert taken == old(Model()).(queue := old(queue)[1..]);
      match e {
        case Tick =>
        case Crossterm(Key(k)) =>
          HandleKeyEvent(k);
        case Crossterm(NonKey) =>
        case App(NewProcess(p)) =>
          AddProcess(p);
        case App(Print(msg)) =>
          PrintMsg(msg);
        case App(Quit) =>
          Quit();
      }
      assert Model() == OnEvent(taken, e, env);
    }

    /** `run`, over the events that are pending: it draws and then handles
      the oldest event, until the application stops or none is left. */
    method Run()
      requires Valid()
      modifies this
      ensures Model() == Drain(old(Model()), env)
      ensures Valid()
    {
      while running && queue != []
        invariant Valid()
        invariant Drain(Model(), env) == Drain(old(Model()), env)
        decreases Weight(queue)
      {
        TurnLightens(Model(), env);
        TurnKeepsInv(Model(), env);
        DrawnKeepsInv(Model(), env);
        Draw();
        HandleEvents();
      }
    }
  }
}
