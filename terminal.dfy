/** The terminal input events both `App` variants receive from crossterm. */
module Terminal {

  /** The key codes the key handlers tell apart; every other key is `OtherKey`. */
  datatype KeyCode = Esc | Enter | Up | Down | Left | Right | Char(c: char) | OtherKey

  datatype Modifier = Shift | Control | Alt | Super | Hyper | Meta

  datatype KeyEvent = KeyEvent(code: KeyCode, modifiers: set<Modifier>)

  /** A crossterm event: a key, or anything else (mouse, resize, focus, paste). */
  datatype TerminalEvent = Key(key: KeyEvent) | NonKey

  /** What a key handler does with a key. */
  datatype KeyAction = RequestQuit | RowDown | RowUp | ColumnRight | ColumnLeft | Inspect | NoAction

  /** Control held and nothing else: `modifiers == KeyModifiers::CONTROL`. */
  predicate ControlOnly(k: KeyEvent) {
    k.modifiers == {Control}
  }

  /** The key table of `handle_key_event`, arms tried in order: Esc and `q`
      quit whatever the modifiers, `c`/`C` quits only with Control alone,
      then `j`/Down, `k`/Up, `l`/Right, `h`/Left move, and Enter inspects. */
  function Action(k: KeyEvent): (a: KeyAction)
    ensures a == RequestQuit <==>
      (k.code == Esc || k.code == Char('q') || ((k.code == Char('c') || k.code == Char('C')) && ControlOnly(k)))
    ensures a == RowDown <==> (k.code == Char('j') || k.code == Down)
    ensures a == RowUp <==> (k.code == Char('k') || k.code == Up)
    ensures a == ColumnRight <==> (k.code == Char('l') || k.code == Right)
    ensures a == ColumnLeft <==> (k.code == Char('h') || k.code == Left)
    ensures a == Inspect <==> k.code == Enter
  {
    match k.code
    case Esc => RequestQuit
    case Enter => Inspect
    case Down => RowDown
    case Up => RowUp
    case Right => ColumnRight
    case Left => ColumnLeft
    case OtherKey => NoAction
    case Char(c) =>
      if c == 'q' then RequestQuit
      else if (c == 'c' || c == 'C') && ControlOnly(k) then RequestQuit
      else if c == 'j' then RowDown
      else if c == 'k' then RowUp
      else if c == 'l' then ColumnRight
      else if c == 'h' then ColumnLeft
      else NoAction
  }

  /** Modifiers matter only to `c` and `C`: every other key does the same with
      any modifiers held. */
  lemma ModifiersOnlyMatterForC(k: KeyEvent, m: set<Modifier>)
    requires k.code != Char('c') && k.code != Char('C')
    ensures Action(KeyEvent(k.code, m)) == Action(k)
  {
  }

  /** A `c` without Control, or with Control and another modifier, does nothing. */
  lemma OnlyControlCQuits(m: set<Modifier>)
    ensures Action(KeyEvent(Char('c'), m)) == if m == {Control} then RequestQuit else NoAction
  {
  }
}
