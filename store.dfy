/** The logic both `App` variants (tui/src/app.rs and src/app.rs) share: the
    bounded window of recent executions, the wrapping row cursor, and the
    column widths computed as maxima over the window. */
module Store {
  import opened Wrappers

  /** `MAX_ITEMS_COUNT`: executions kept in the window. */
  const MaxItems: nat := 50
  /** `ITEM_HEIGHT`: terminal rows per table row. */
  const ItemHeight: nat := 1

  // ---------------------------------------------------------------------------
  // The bounded window
  // ---------------------------------------------------------------------------

  /** `add_process` on the store: `pop_front` when it holds `MaxItems`, then `push_back`. */
  function Pushed<T>(s: seq<T>, x: T): (r: seq<T>)
    ensures |s| <= MaxItems ==> |r| <= MaxItems
    ensures |s| < MaxItems ==> |r| == |s| + 1
    ensures |s| == MaxItems ==> |r| == MaxItems
    ensures 0 < |r| <= |s| + 1 && r == (s + [x])[|s| + 1 - |r|..]
  {
    if |s| == MaxItems then s[1..] + [x] else s + [x]
  }

  /** The store after pushing every element of `xs` in order. */
  function PushAll<T>(s: seq<T>, xs: seq<T>): seq<T>
    decreases |xs|
  {
    if xs == [] then s else PushAll(Pushed(s, xs[0]), xs[1..])
  }

  /** The last `MaxItems` elements of a history (all of it when shorter). */
  function Recent<T>(h: seq<T>): (r: seq<T>)
    ensures |r| == if |h| <= MaxItems then |h| else MaxItems
  {
    if |h| <= MaxItems then h else h[|h| - MaxItems..]
  }

  lemma RecentOfSuffix<T>(u: seq<T>, v: seq<T>, w: seq<T>)
    requires |u| <= |v| && u == v[|v| - |u|..]
    requires |u| == |v| || |u| >= MaxItems
    ensures Recent(u + w) == Recent(v + w)
  {
    if |u| < |v| {
      var vw := v + w;
      assert vw[|v| - |u|..] == u + w;
      assert Recent(vw) == vw[|vw| - MaxItems..];
      assert vw[|vw| - MaxItems..] == (u + w)[|u + w| - MaxItems..];
    } else {
      assert u == v;
    }
  }

  /** The FIFO eviction law: however many executions arrive, the store holds
      exactly the most recent `MaxItems` of everything ever pushed, in
      arrival order. */
  lemma {:induction false} PushAllKeepsRecent<T>(s: seq<T>, xs: seq<T>)
    requires |s| <= MaxItems
    ensures PushAll(s, xs) == Recent(s + xs)
    decreases |xs|
  {
    if xs == [] {
      assert s + xs == s;
    } else {
      var s' := Pushed(s, xs[0]);
      PushAllKeepsRecent(s', xs[1..]);
      RecentOfSuffix(s', s + [xs[0]], xs[1..]);
      assert s + [xs[0]] + xs[1..] == s + xs;
    }
  }

  /** After 51 arrivals into an empty store the first one is gone and the other
      50 remain in order. */
  lemma FirstEvictedByFiftyFirst<T>(xs: seq<T>)
    requires |xs| == MaxItems + 1
    ensures PushAll([], xs) == xs[1..]
  {
    PushAllKeepsRecent([], xs);
    assert [] + xs == xs;
  }

  // ---------------------------------------------------------------------------
  // The row cursor
  // ---------------------------------------------------------------------------

  /** `next_row` as written: `processes.len() - 1` is computed on a `usize`,
      which panics (in a debug build) when the store is empty. From a row it
      moves down one and wraps past the last row to row 0; with nothing
      selected it selects row 0. */
  function NextRowAsWritten(sel: Option<nat>, len: nat): (r: Outcome<nat>)
    ensures r.Panic? <==> sel.Some? && len == 0
    ensures !r.Err?
    ensures sel.None? ==> r == Ok(0)
    ensures sel.Some? && sel.value < len ==> r == Ok((sel.value + 1) % len)
    ensures sel.Some? && sel.value >= len > 0 ==> r == Ok(0)
  {
    match sel
    case None => Ok(0)
    case Some(i) =>
      if len == 0 then Panic
      else if i >= len - 1 then (assert i < len ==> i + 1 == len; Ok(0))
      else Ok(i + 1)
  }

  /** `previous_row` as written: the same subtraction, reached from row 0.
      From a row it moves up one and wraps from row 0 to the last row; with
      nothing selected it selects row 0. */
  function PreviousRowAsWritten(sel: Option<nat>, len: nat): (r: Outcome<nat>)
    ensures r.Panic? <==> sel == Some(0) && len == 0
    ensures !r.Err?
    ensures sel.None? ==> r == Ok(0)
    ensures sel.Some? && sel.value < len ==> r == Ok((sel.value + len - 1) % len)
    ensures sel.Some? && sel.value > 0 ==> r == Ok(sel.value - 1)
  {
    match sel
    case None => Ok(0)
    case Some(i) =>
      if i == 0 then (if len == 0 then Panic else Ok(len - 1))
      else (assert i < len ==> i + len - 1 == len + (i - 1); Ok(i - 1))
  }

  /** Before every event `run` draws the table, and the stateful table render
      reconciles the selection with the rows: nothing is selected while there
      are no rows, and a selection past the end moves to the last row. (The
      render skips this when the table is given no area on screen.) */
  function DrawClamp(sel: Option<nat>, len: nat): (r: Option<nat>)
    ensures r.None? <==> len == 0 || sel.None?
    ensures r.Some? ==> r.value < len
    ensures sel.Some? && sel.value < len ==> r == sel
    ensures sel.Some? && sel.value >= len > 0 ==> r == Some(len - 1)
  {
    if len == 0 then None
    else match sel
      case None => None
      case Some(i) => Some(if i < len then i else len - 1)
  }

  /** Once the draw has reconciled the selection, neither row move panics,
      and each lands on a row (or on row 0 while there is none). */
  lemma DrawnRowMovesDoNotPanic(sel: Option<nat>, len: nat)
    ensures NextRowAsWritten(DrawClamp(sel, len), len).Ok?
    ensures PreviousRowAsWritten(DrawClamp(sel, len), len).Ok?
    ensures CursorValid(Some(NextRowAsWritten(DrawClamp(sel, len), len).value), len)
    ensures CursorValid(Some(PreviousRowAsWritten(DrawClamp(sel, len), len).value), len)
  {
  }

  /** As written, and reached without a draw in between (the initial table
      state selects row 0 while the store is still empty), `j`, `Down`, `k`
      or `Up` pressed before any execution arrives panics. */
  lemma RowMoveOnEmptyStorePanics()
    ensures NextRowAsWritten(Some(0), 0) == Panic
    ensures PreviousRowAsWritten(Some(0), 0) == Panic
  {
  }

  /** A selection that points at a row, or at row 0 while there is none. */
  predicate CursorValid(sel: Option<nat>, len: nat) {
    sel.Some? && (if len == 0 then sel.value == 0 else sel.value < len)
  }

  /** `next_row` with the subtraction guarded: on an empty store a selection
      is left as it is; otherwise it moves down one row and wraps to 0. */
  function NextRow(sel: Option<nat>, len: nat): (r: Option<nat>)
    ensures len > 0 || CursorValid(sel, len) ==> CursorValid(r, len)
    ensures NextRowAsWritten(sel, len).Ok? ==> r == Some(NextRowAsWritten(sel, len).value)
    ensures len == 0 && sel.Some? ==> r == sel
  {
    match sel
    case None => Some(0)
    case Some(i) => if len == 0 then sel else if i >= len - 1 then Some(0) else Some(i + 1)
  }

  /** `previous_row` with the subtraction guarded: up one row, wrapping from 0
      to the last row. */
  function PreviousRow(sel: Option<nat>, len: nat): (r: Option<nat>)
    ensures sel.None? || CursorValid(sel, len) ==> CursorValid(r, len)
    ensures PreviousRowAsWritten(sel, len).Ok? ==> r == Some(PreviousRowAsWritten(sel, len).value)
    ensures len == 0 && sel == Some(0) ==> r == sel
  {
    match sel
    case None => Some(0)
    case Some(i) => if i == 0 then (if len == 0 then sel else Some(len - 1)) else Some(i - 1)
  }

  /** Moving down and then up, or up and then down, returns to the same row. */
  lemma RowMovesAreInverse(i: nat, len: nat)
    requires i < len
    ensures PreviousRow(NextRow(Some(i), len), len) == Some(i)
    ensures NextRow(PreviousRow(Some(i), len), len) == Some(i)
  {
  }

  /** The scroll position that goes with a selected row. */
  function ScrollPosition(sel: Option<nat>): nat {
    if sel.Some? then sel.value * ItemHeight else 0
  }

  // ---------------------------------------------------------------------------
  // Column widths
  // ---------------------------------------------------------------------------

  /** `iter().max().unwrap_or(default)`. */
  function MaxOr(xs: seq<nat>, default: nat): (m: nat)
    ensures xs == [] ==> m == default
    ensures forall i :: 0 <= i < |xs| ==> xs[i] <= m
    ensures xs != [] ==> exists i :: 0 <= i < |xs| && xs[i] == m
    decreases |xs|
  {
    if xs == [] then default
    else if |xs| == 1 then xs[0]
    else
      var m := MaxOr(xs[1..], default);
      if xs[0] >= m then xs[0] else m
  }

  /** `n as u16`: the low 16 bits. */
  function AsU16(n: nat): (r: nat)
    ensures r < 0x1_0000
    ensures n < 0x1_0000 ==> r == n
  {
    n % 0x1_0000
  }

  /** The largest of `xs`, or `default` for none, as a `u16`; when every value
      fits in 16 bits it bounds each value and equals one of them. */
  lemma WidthIsMaximum(xs: seq<nat>, default: nat)
    requires forall i :: 0 <= i < |xs| ==> xs[i] < 0x1_0000
    ensures forall i :: 0 <= i < |xs| ==> xs[i] <= AsU16(MaxOr(xs, default))
    ensures xs != [] ==> exists i :: 0 <= i < |xs| && xs[i] == AsU16(MaxOr(xs, default))
  {
    var m := MaxOr(xs, default);
    if xs != [] {
      var i :| 0 <= i < |xs| && xs[i] == m;
      assert AsU16(m) == m;
    }
  }

  /** The width of every item. */
  function Widths<T>(items: seq<T>, width: T -> nat): (ws: seq<nat>)
    ensures |ws| == |items|
    ensures forall i :: 0 <= i < |items| ==> ws[i] == width(items[i])
  {
    seq(|items|, i requires 0 <= i < |items| => width(items[i]))
  }

  /** `items.iter().map(width).max().unwrap_or(default) as u16`: the widest
      item, or `default` for none, truncated to 16 bits. */
  function ColumnWidth<T>(items: seq<T>, width: T -> nat, default: nat): (w: nat)
    ensures w < 0x1_0000
    ensures items == [] ==> w == AsU16(default)
  {
    AsU16(MaxOr(Widths(items, width), default))
  }

  /** When every width fits in 16 bits, the column is as wide as every item
      and exactly as wide as one of them. */
  lemma ColumnWidthIsMaximum<T>(items: seq<T>, width: T -> nat, default: nat)
    requires forall i :: 0 <= i < |items| ==> width(items[i]) < 0x1_0000
    ensures forall i :: 0 <= i < |items| ==> width(items[i]) <= ColumnWidth(items, width, default)
    ensures items != [] ==> exists i :: 0 <= i < |items| && width(items[i]) == ColumnWidth(items, width, default)
  {
    WidthIsMaximum(Widths(items, width), default);
  }
}
