/** The application of the older front end (src/app.rs): the window of
    recent executions, the selected row, the column widths, and the event
    loop that applies events one at a time. */
module LegacyApp {
  import opened Wrappers
  import opened Text
  import opened Store
  import opened Terminal
  import Feeder
  import opened LegacyMain

  /** Events the application sends to itself or receives from the feeder. */
  datatype AppEvent = NewProcess(process: ProcessExecution) | Quit

  /** What `events.next()` yields: a tick, a terminal event, or an application event. */
  datatype Event = Tick | Crossterm(event: TerminalEvent) | App(app: AppEvent)

  /** `longest_item_lens`: one width per table column, in the order
      timestamp, pid, ppid, command. */
  datatype ColumnWidths = ColumnWidths(timestamp: nat, pid: nat, ppid: nat, command: nat)

  /** The widths before any execution has arrived. */
  const DefaultWidths := ColumnWidths(10, 4, 4, 20)

  /** The foreign functions the application calls: printing a timestamp and
      the display width of a string. */
  datatype Env = Env(showTime: Feeder.DateTime -> string, width: string -> nat)

  // ---------------------------------------------------------------------------
  // Column widths
  // ---------------------------------------------------------------------------

  function TimeWidth(p: ProcessExecution, env: Env): nat { env.width(env.showTime(p.timestamp)) }
  function PidWidth(p: ProcessExecution, env: Env): nat { env.width(Decimal(p.pid)) }
  function PpidWidth(p: ProcessExecution, env: Env): nat { env.width(Decimal(p.ppid)) }
  function CommandWidth(p: ProcessExecution, env: Env): nat { env.width(p.command) }

  /** Every width of every execution fits in a `u16`. */
  predicate Fits16(items: seq<ProcessExecution>, env: Env) {
    forall i :: 0 <= i < |items| ==>
      TimeWidth(items[i], env) < 0x1_0000 && PidWidth(items[i], env) < 0x1_0000
      && PpidWidth(items[i], env) < 0x1_0000 && CommandWidth(items[i], env) < 0x1_0000
  }

  /** The columns are wide enough for the execution. */
  predicate Covers(w: ColumnWidths, p: ProcessExecution, env: Env) {
    TimeWidth(p, env) <= w.timestamp && PidWidth(p, env) <= w.pid
    && PpidWidth(p, env) <= w.ppid && CommandWidth(p, env) <= w.command
  }

  /** `constraint_len_calculator`: every column is the widest entry's width,
      or 0 over no entries. */
  function ConstraintLens(items: seq<ProcessExecution>, env: Env): (w: ColumnWidths)
    ensures items == [] ==> w == ColumnWidths(0, 0, 0, 0)
  {
    ColumnWidths(
      ColumnWidth(items, p => TimeWidth(p, env), 0),
      ColumnWidth(items, p => PidWidth(p, env), 0),
      ColumnWidth(items, p => PpidWidth(p, env), 0),
      ColumnWidth(items, p => CommandWidth(p, env), 0))
  }

  /** When every width fits in a `u16`, each computed column is wide enough
      for every execution and exactly as wide as one of them. */
  lemma ConstraintLensIsMaximum(items: seq<ProcessExecution>, env: Env)
    requires Fits16(items, env)
    ensures forall i :: 0 <= i < |items| ==> Covers(ConstraintLens(items, env), items[i], env)
    ensures var w := ConstraintLens(items, env);
      items != [] ==>
      (exists i :: 0 <= i < |items| && TimeWidth(items[i], env) == w.timestamp)
      && (exists i :: 0 <= i < |items| && PidWidth(items[i], env) == w.pid)
      && (exists i :: 0 <= i < |items| && PpidWidth(items[i], env) == w.ppid)
      && (exists i :: 0 <= i < |items| && CommandWidth(items[i], env) == w.command)
  {
    ColumnWidthIsMaximum(items, p => TimeWidth(p, env), 0);
    ColumnWidthIsMaximum(items, p => PidWidth(p, env), 0);
    ColumnWidthIsMaximum(items, p => PpidWidth(p, env), 0);
    ColumnWidthIsMaximum(items, p => CommandWidth(p, env), 0);
  }

  /** The widths the application holds for a window: the defaults until the
      first execution arrives, then those of the window. */
  function Lens(items: seq<ProcessExecution>, env: Env): ColumnWidths {
    if items == [] then DefaultWidths else ConstraintLens(items, env)
  }

  // ---------------------------------------------------------------------------
  // The application state and its transitions
  // ---------------------------------------------------------------------------

  /** The modelled fields of `App`; `queue` is what the event channel holds. */
  datatype State = State(
    running: bool,
    processes: seq<ProcessExecution>,
    selected: Option<nat>,
    scroll: nat,
    lens: ColumnWidths,
    queue: seq<Event>)

  /** `App::default`: running, no executions, row 0 selected. */
  function Initial(): State {
    State(true, [], Some(0), 0, DefaultWidths, [])
  }

  /** A selection points at a row (row 0 while there is none) and the
      scroll position is that row's. */
  predicate CursorInv(s: State) {
    s.selected.Some? ==> CursorValid(s.selected, |s.processes|) && s.scroll == ScrollPosition(s.selected)
  }

  /** What the application keeps true between events: at most `MaxItems`
      executions, the cursor on a row, and the widths of the window. */
  predicate Inv(s: State, env: Env) {
    |s.processes| <= MaxItems && CursorInv(s) && s.lens == Lens(s.processes, env)
  }

  /** `add_process`: push into the bounded window, then recompute the widths. */
  function AddedProcess(s: State, p: ProcessExecution, env: Env): State {
    var processes := Pushed(s.processes, p);
    s.(processes := processes, lens := ConstraintLens(processes, env))
  }

  /** Select a row and scroll to it. */
  function SelectRow(s: State, sel: Option<nat>): State {
    s.(selected := sel, scroll := ScrollPosition(sel))
  }

  /** `handle_key_event`: a quit key sends `Quit` to the back of the event
      channel rather than stopping at once; column moves change only
      presentation state that is not modelled; Enter has no arm here. */
  function OnKey(s: State, k: KeyEvent, env: Env): State {
    match Action(k)
    case RequestQuit => s.(queue := s.queue + [App(Quit)])
    case RowDown => SelectRow(s, NextRow(s.selected, |s.processes|))
    case RowUp => SelectRow(s, PreviousRow(s.selected, |s.processes|))
    case ColumnRight => s
    case ColumnLeft => s
    case Inspect => s
    case NoAction => s
  }

  /** `handle_events` for one event already taken off the channel. */
  function OnEvent(s: State, e: Event, env: Env): State {
    match e
    case Tick => s
    case Crossterm(Key(k)) => OnKey(s, k, env)
    case Crossterm(NonKey) => s
    case App(NewProcess(p)) => AddedProcess(s, p, env)
    case App(Quit) => s.(running := false)
  }

  /** What drawing the frame does to the state: the table render reconciles
      the selection with the rows (`DrawClamp`); nothing else changes. */
  function Drawn(s: State): State {
    s.(selected := DrawClamp(s.selected, |s.processes|))
  }

  /** `handle_events`: take the oldest event off the channel and apply it. */
  function HandleNext(s: State, env: Env): State
    requires s.queue != []
  {
    OnEvent(s.(queue := s.queue[1..]), s.queue[0], env)
  }

  /** One turn of `run`: draw, then handle the oldest pending event. */
  function Turn(s: State, env: Env): State
    requires s.queue != []
  {
    HandleNext(Drawn(s), env)
  }

  /** A quit key weighs 2, since handling it enqueues one `Quit`; every other event weighs 1. */
  function EventWeight(e: Event): nat {
    if e.Crossterm? && e.event.Key? && Action(e.event.key) == RequestQuit then 2 else 1
  }

  function Weight(q: seq<Event>): nat
    decreases |q|
  {
    if q == [] then 0 else EventWeight(q[0]) + Weight(q[1..])
  }

  lemma {:induction false} WeightAppend(a: seq<Event>, b: seq<Event>)
    ensures Weight(a + b) == Weight(a) + Weight(b)
    decreases |a|
  {
    if a == [] {
      assert a + b == b;
    } else {
      assert (a + b)[1..] == a[1..] + b;
      WeightAppend(a[1..], b);
    }
  }

  /** Every turn lightens the channel, so the loop over pending events ends. */
  lemma TurnLightens(s: State, env: Env)
    requires s.queue != []
    ensures Weight(Turn(s, env).queue) < Weight(s.queue)
  {
    var rest := s.queue[1..];
    var e := s.queue[0];
    if EventWeight(e) == 2 {
      WeightAppend(rest, [App(Quit)]);
      assert Weight([App(Quit)]) == 1 by {
        assert [App(Quit)][1..] == [];
      }
    } else {
      assert Turn(s, env).queue == rest;
    }
  }

  /** `run` with the events now pending: turns until the application stops
      or the channel is empty. */
  function Drain(s: State, env: Env): State
    decreases Weight(s.queue)
  {
    if !s.running || s.queue == [] then s
    else
      TurnLightens(s, env);
      Drain(Turn(s, env), env)
  }

  // ---------------------------------------------------------------------------
  // Properties of the transitions
  // ---------------------------------------------------------------------------

  /** The initial state keeps the invariant. */
  lemma InitialInv(env: Env)
    ensures Inv(Initial(), env)
  {
  }

  lemma AddedProcessKeepsInv(s: State, p: ProcessExecution, env: Env)
    requires Inv(s, env)
    ensures Inv(AddedProcess(s, p, env), env)
  {
    var t := AddedProcess(s, p, env);
    assert t.processes != [];
    assert t.lens == Lens(t.processes, env);
    assert CursorInv(t);
  }

  /** A key never changes the window or the widths. */
  lemma OnKeyFrame(s: State, k: KeyEvent, env: Env)
    ensures OnKey(s, k, env).processes == s.processes && OnKey(s, k, env).lens == s.lens
    ensures OnKey(s, k, env).running == s.running
  {
  }

  /** A key keeps the cursor on a row. */
  lemma OnKeyKeepsCursor(s: State, k: KeyEvent, env: Env)
    requires CursorInv(s)
    ensures CursorInv(OnKey(s, k, env))
  {
  }

  lemma OnKeyKeepsInv(s: State, k: KeyEvent, env: Env)
    requires Inv(s, env)
    ensures Inv(OnKey(s, k, env), env)
  {
    OnKeyFrame(s, k, env);
    OnKeyKeepsCursor(s, k, env);
  }

  /** Every event keeps the invariant. */
  lemma OnEventKeepsInv(s: State, e: Event, env: Env)
    requires Inv(s, env)
    ensures Inv(OnEvent(s, e, env), env)
  {
    match e {
      case App(NewProcess(p)) => AddedProcessKeepsInv(s, p, env);
      case Crossterm(Key(k)) => OnKeyKeepsInv(s, k, env);
      case Tick =>
      case Crossterm(NonKey) =>
      case App(Quit) => assert OnEvent(s, e, env) == s.(running := false);
    }
  }

  /** Drawing keeps the invariant, and on the empty window it leaves nothing selected. */
  lemma DrawnKeepsInv(s: State, env: Env)
    requires Inv(s, env)
    ensures Inv(Drawn(s), env)
    ensures s.processes == [] ==> Drawn(s).selected == None
    ensures s.processes != [] ==> Drawn(s).selected == s.selected
  {
  }

  /** On a drawn state each row move the model makes is the one `next_row`
      and `previous_row` make as written, and neither of those panics. */
  lemma DrawnRowMovesAsWritten(s: State, env: Env)
    requires Inv(s, env)
    ensures var d := Drawn(s); var n := |d.processes|;
      NextRowAsWritten(d.selected, n) == Ok(Store.NextRow(d.selected, n).value)
      && PreviousRowAsWritten(d.selected, n) == Ok(Store.PreviousRow(d.selected, n).value)
  {
    DrawnRowMovesDoNotPanic(s.selected, |s.processes|);
  }

  lemma HandleNextKeepsInv(s: State, env: Env)
    requires Inv(s, env) && s.queue != []
    ensures Inv(HandleNext(s, env), env)
  {
    OnEventKeepsInv(s.(queue := s.queue[1..]), s.queue[0], env);
  }

  lemma TurnKeepsInv(s: State, env: Env)
    requires Inv(s, env) && s.queue != []
    ensures Inv(Turn(s, env), env)
  {
    DrawnKeepsInv(s, env);
    HandleNextKeepsInv(Drawn(s), env);
  }

  /** Every turn of the loop keeps the invariant. */
  lemma {:induction false} DrainKeepsInv(s: State, env: Env)
    requires Inv(s, env)
    ensures Inv(Drain(s, env), env)
    decreases Weight(s.queue)
  {
    if s.running && s.queue != [] {
      TurnLightens(s, env);
      TurnKeepsInv(s, env);
      DrainKeepsInv(Turn(s, env), env);
    }
  }

  /** Only a `Quit` event stops the application; no key does it directly. */
  lemma OnlyQuitStops(s: State, e: Event, env: Env)
    requires s.running && !OnEvent(s, e, env).running
    ensures e == App(Quit)
  {
  }

  /** A quit key only enqueues `Quit`: the window, selection and widths are untouched and the application is still running. */
  lemma QuitKeyOnlyEnqueues(s: State, k: KeyEvent, env: Env)
    requires Action(k) == RequestQuit
    ensures OnKey(s, k, env) == s.(queue := s.queue + [App(Quit)])
  {
  }

  /** Enter does nothing in this front end. */
  lemma EnterIgnored(s: State, k: KeyEvent, env: Env)
    requires k.code == Enter
    ensures OnKey(s, k, env) == s
  {
  }

  /** The widths always cover every execution in the window. */
  lemma LensCoversWindow(s: State, env: Env)
    requires Inv(s, env) && Fits16(s.processes, env)
    ensures forall i :: 0 <= i < |s.processes| ==> Covers(s.lens, s.processes[i], env)
  {
    ConstraintLensIsMaximum(s.processes, env);
  }

  /** A pending `Quit` at the front of the channel stops the loop at once,
      leaving everything behind it unread. */
  lemma QuitStopsDrain(s: State, env: Env)
    requires s.running && s.queue != [] && s.queue[0] == App(Quit)
    ensures Drain(s, env) == Drawn(s).(running := false, queue := s.queue[1..])
  {
    TurnLightens(s, env);
  }

  /** The events the feeder sends for the executions it parsed. */
  function Arrivals(ps: seq<ProcessExecution>): (q: seq<Event>)
    ensures |q| == |ps|
    decreases |ps|
  {
    if ps == [] then [] else [App(NewProcess(ps[0]))] + Arrivals(ps[1..])
  }

  /** An arriving execution is pushed into the window and nothing else changes but the widths. */
  lemma TurnOnArrival(s: State, p: ProcessExecution, env: Env)
    requires s.queue != [] && s.queue[0] == App(NewProcess(p))
    ensures Turn(s, env).running == s.running && Turn(s, env).queue == s.queue[1..]
    ensures Turn(s, env).processes == Pushed(s.processes, p)
  {
  }

  lemma {:induction false} DrainArrivalsPushes(s: State, ps: seq<ProcessExecution>, env: Env)
    requires s.running && s.queue == Arrivals(ps)
    ensures Drain(s, env).processes == PushAll(s.processes, ps)
    ensures Drain(s, env).running
    decreases |ps|
  {
    if ps == [] {
      assert Drain(s, env) == s;
    } else {
      var t := Turn(s, env);
      assert s.queue[1..] == Arrivals(ps[1..]);
      TurnOnArrival(s, ps[0], env);
      DrainArrivalsPushes(t, ps[1..], env);
      assert Drain(s, env) == Drain(t, env);
      assert PushAll(s.processes, ps) == PushAll(t.processes, ps[1..]);
    }
  }

  /** Executions arriving from the feeder leave the window holding the most
      recent `MaxItems` of everything received, in arrival order. */
  lemma ArrivalsKeepRecent(s: State, ps: seq<ProcessExecution>, env: Env)
    requires Inv(s, env) && s.running && s.queue == Arrivals(ps)
    ensures Drain(s, env).processes == Recent(s.processes + ps)
  {
    DrainArrivalsPushes(s, ps, env);
    PushAllKeepsRecent(s.processes, ps);
  }

  // ---------------------------------------------------------------------------
  // The application object
  // ---------------------------------------------------------------------------

  class App {
    var running: bool
    var processes: seq<ProcessExecution>
    var selected: Option<nat>
    var scroll: nat
    var lens: ColumnWidths
    /** The events waiting in the channel, oldest first. */
    var queue: seq<Event>
    const env: Env

    function Model(): State
      reads this
    {
      State(running, processes, selected, scroll, lens, queue)
    }

    predicate Valid()
      reads this
    {
      Inv(Model(), env)
    }

    /** `App::new`. */
    constructor(env: Env)
      ensures Model() == Initial() && this.env == env
      ensures Valid()
    {
      running := true;
      processes := [];
      selected := Some(0);
      scroll := 0;
      lens := DefaultWidths;
      queue := [];
      this.env := env;
    }

    method Quit()
      modifies this
      ensures Model() == old(Model()).(running := false)
    {
      running := false;
    }

    method AddProcess(p: ProcessExecution)
      modifies this
      ensures Model() == AddedProcess(old(Model()), p, env)
    {
      if |processes| == MaxItems {
        processes := processes[1..];
      }
      processes := processes + [p];
      lens := ConstraintLens(processes, env);
    }

    method NextRow()
      requires selected.Some? ==> scroll == ScrollPosition(selected)
      modifies this
      ensures Model() == SelectRow(old(Model()), Store.NextRow(old(selected), old(|processes|)))
    {
      var i: nat;
      match selected {
        case None =>
          i := 0;
        case Some(j) =>
          if |processes| == 0 {
            return;
          } else if j >= |processes| - 1 {
            i := 0;
          } else {
            i := j + 1;
          }
      }
      selected := Some(i);
      scroll := i * ItemHeight;
    }

    method PreviousRow()
      requires selected.Some? ==> scroll == ScrollPosition(selected)
      modifies this
      ensures Model() == SelectRow(old(Model()), Store.PreviousRow(old(selected), old(|processes|)))
    {
      var i: nat;
      match selected {
        case None =>
          i := 0;
        case Some(j) =>
          if j == 0 {
            if |processes| == 0 {
              return;
            }
            i := |processes| - 1;
          } else {
            i := j - 1;
          }
      }
      selected := Some(i);
      scroll := i * ItemHeight;
    }

    method HandleKeyEvent(k: KeyEvent)
      requires selected.Some? ==> scroll == ScrollPosition(selected)
      modifies this
      ensures Model() == OnKey(old(Model()), k, env)
    {
      match Action(k) {
        case RequestQuit =>
          queue := queue + [App(AppEvent.Quit)];
        case RowDown =>
          NextRow();
        case RowUp =>
          PreviousRow();
        case ColumnRight =>
        case ColumnLeft =>
        case Inspect =>
        case NoAction =>
      }
    }

    /** `terminal.draw`: rendering the table reconciles its selection with
        the rows; nothing else that is modelled changes. */
    method Draw()
      modifies this
      ensures Model() == Drawn(old(Model()))
    {
      if |processes| == 0 {
        selected := None;
      } else if selected.Some? && selected.value >= |processes| {
        selected := Some(|processes| - 1);
      }
    }

    /** `handle_events`: `events.next()` blocks until an event is pending. */
    method HandleEvents()
      requires (selected.Some? ==> scroll == ScrollPosition(selected)) && queue != []
      modifies this
      ensures Model() == HandleNext(old(Model()), env)
    {
      var e := queue[0];
      queue := queue[1..];
      ghost var taken := Model();
      assert taken == old(Model()).(queue := old(queue)[1..]);
      match e {
        case Tick =>
        case Crossterm(Key(k)) =>
          HandleKeyEvent(k);
        case Crossterm(NonKey) =>
        case App(NewProcess(p)) =>
          AddProcess(p);
        case App(Quit) =>
          Quit();
      }
      assert Model() == OnEvent(taken, e, env);
    }

    /** `run`, over the events that are pending: it draws and then handles
      the oldest event, until the application stops or none is left. */
    method Run()
      requires Valid()
      modifies this
      ensures Model() == Drain(old(Model()), env)
      ensures Valid()
    {
      while running && queue != []
        invariant Valid()
        invariant Drain(Model(), env) == Drain(old(Model()), env)
        decreases Weight(queue)
      {
        TurnLightens(Model(), env);
        TurnKeepsInv(Model(), env);
        DrawnKeepsInv(Model(), env);
        Draw();
        HandleEvents();
      }
    }
  }
}
