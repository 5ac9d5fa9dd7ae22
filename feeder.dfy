/** The feeder thread both front ends spawn (tui/src/main.rs and
    src/main.rs): it reads the capture script's output line by line, parses
    each line, and sends every parsed execution to the application in order.
    The two front ends differ only in what a line that does not parse does. */
module Feeder {
  import opened Wrappers

  /** A chrono `NaiveDateTime`; parsing and printing it is foreign. */
  datatype DateTime = DateTime(seconds: int)

  /** `NaiveDateTime::parse_from_str(_, FORMAT)`, which may fail. */
  type TimeParser = string -> Option<DateTime>

  /** One item of `reader.lines()`. */
  datatype LineRead = Line(text: string) | ReadError

  /** One item after parsing: `None` for a read error, else the parse outcome. */
  type Item<P> = Option<Outcome<P>>

  /** What a line that does not parse does: skipped, or a panic of the thread. */
  datatype ErrorPolicy = SkipLine | PanicOnError

  /** How the feeder stops: the source ran dry, a read failed, or it panicked. */
  datatype FeedEnd = SourceClosed | ReadFailed | FeederPanicked

  /** The executions sent to the application, in order, and how the feeder stopped. */
  datatype FeedRun<P> = FeedRun(sent: seq<P>, end: FeedEnd)

  /** The effect of one item in front of the run of the items after it: a
      parsed line is sent, a read error ends the loop, a panic in the parser
      ends the thread, and a line that does not parse is handled by `policy`. */
  function Step<P>(o: Item<P>, rest: FeedRun<P>, policy: ErrorPolicy): (r: FeedRun<P>)
    ensures |r.sent| <= |rest.sent| + 1
    ensures r.end == SourceClosed ==> o.Some? && !o.value.Panic? && rest.end == SourceClosed
    ensures o == Some(Err) && policy == SkipLine ==> r == rest
    ensures o == Some(Err) && policy == PanicOnError ==> r == FeedRun([], FeederPanicked)
  {
    match o
    case None => FeedRun([], ReadFailed)
    case Some(Err) => if policy == SkipLine then rest else FeedRun([], FeederPanicked)
    case Some(Panic) => FeedRun([], FeederPanicked)
    case Some(Ok(p)) => FeedRun([p] + rest.sent, rest.end)
  }

  /** What the feeder does with a whole stream. */
  function Feed<P>(items: seq<Item<P>>, policy: ErrorPolicy): (r: FeedRun<P>)
    ensures |r.sent| <= |items|
    ensures r.end == SourceClosed ==> forall i :: 0 <= i < |items| ==> items[i].Some? && !items[i].value.Panic?
    decreases |items|
  {
    if items == [] then FeedRun([], SourceClosed)
    else Step(items[0], Feed(items[1..], policy), policy)
  }

  /** One run followed by another: the executions of both, and the second's end. */
  function Then<P>(r: FeedRun<P>, s: FeedRun<P>): FeedRun<P> {
    FeedRun(r.sent + s.sent, s.end)
  }

  lemma StepThen<P>(o: Item<P>, r: FeedRun<P>, s: FeedRun<P>, policy: ErrorPolicy)
    requires Step(o, r, policy).end == SourceClosed
    ensures Step(o, Then(r, s), policy) == Then(Step(o, r, policy), s)
  {
    if o.value.Ok? {
      assert [o.value.value] + (r.sent + s.sent) == ([o.value.value] + r.sent) + s.sent;
    }
  }

  /** Feeding two streams one after the other, when the first ends normally,
      sends the first stream's executions and then the second's, in order. */
  lemma {:induction false} FeedAppend<P>(a: seq<Item<P>>, b: seq<Item<P>>, policy: ErrorPolicy)
    requires Feed(a, policy).end == SourceClosed
    ensures Feed(a + b, policy) == Then(Feed(a, policy), Feed(b, policy))
    decreases |a|
  {
    if a == [] {
      assert a + b == b;
    } else {
      assert (a + b)[0] == a[0];
      assert (a + b)[1..] == a[1..] + b;
      FeedAppend(a[1..], b, policy);
      StepThen(a[0], Feed(a[1..], policy), Feed(b, policy), policy);
    }
  }

  /** Each parsed line adds exactly its execution at the end of what was sent. */
  lemma ParsedLineSentLast<P>(a: seq<Item<P>>, p: P, policy: ErrorPolicy)
    requires Feed(a, policy).end == SourceClosed
    ensures Feed(a + [Some(Ok(p))], policy) == FeedRun(Feed(a, policy).sent + [p], SourceClosed)
  {
    FeedAppend(a, [Some(Ok(p))], policy);
    assert [Some(Ok(p))][1..] == [];
  }

  /** Under `SkipLine`, a line that does not parse leaves no trace. */
  lemma {:induction false} UnparsableLineSkipped<P>(a: seq<Item<P>>, b: seq<Item<P>>)
    ensures Feed(a + [Some(Err)] + b, SkipLine) == Feed(a + b, SkipLine)
    decreases |a|
  {
    if a == [] {
      assert ([Some(Err)] + b)[1..] == b;
      assert a + b == b;
    } else {
      assert (a + [Some(Err)] + b)[1..] == a[1..] + [Some(Err)] + b;
      assert (a + b)[1..] == a[1..] + b;
      UnparsableLineSkipped(a[1..], b);
    }
  }

  /** Under `PanicOnError`, the first line that does not parse ends the
      thread: nothing after it is sent. */
  lemma UnparsableLinePanics<P>(a: seq<Item<P>>, b: seq<Item<P>>)
    requires Feed(a, PanicOnError).end == SourceClosed
    ensures Feed(a + [Some(Err)] + b, PanicOnError) == FeedRun(Feed(a, PanicOnError).sent, FeederPanicked)
  {
    FeedAppend(a, [Some(Err)] + b, PanicOnError);
    assert a + [Some(Err)] + b == a + ([Some(Err)] + b);
    assert Feed(a, PanicOnError).sent + [] == Feed(a, PanicOnError).sent;
  }

  /** A read error ends the feeder: nothing after it is sent. */
  lemma ReadErrorEndsFeed<P>(a: seq<Item<P>>, b: seq<Item<P>>, policy: ErrorPolicy)
    requires Feed(a, policy).end == SourceClosed
    ensures Feed(a + [None] + b, policy) == FeedRun(Feed(a, policy).sent, ReadFailed)
  {
    FeedAppend(a, [None] + b, policy);
    assert a + [None] + b == a + ([None] + b);
    assert Feed(a, policy).sent + [] == Feed(a, policy).sent;
  }

  /** One turn of the feeder loop: with `sent` already sent and the items
      from `i` on still to come, the next item either adds its execution to
      `sent`, is skipped, or ends the run with `sent` as everything sent. */
  lemma Advance<P>(items: seq<Item<P>>, i: nat, sent: seq<P>, policy: ErrorPolicy)
    requires i < |items|
    ensures var now := Then(FeedRun(sent, SourceClosed), Feed(items[i..], policy));
      var next := Feed(items[i + 1..], policy);
      match items[i]
      case Some(Ok(p)) => now == Then(FeedRun(sent + [p], SourceClosed), next)
      case Some(Err) =>
        if policy == SkipLine then now == Then(FeedRun(sent, SourceClosed), next)
        else now == FeedRun(sent, FeederPanicked)
      case Some(Panic) => now == FeedRun(sent, FeederPanicked)
      case None => now == FeedRun(sent, ReadFailed)
  {
    assert items[i..][1..] == items[i + 1..];
    assert sent + [] == sent;
    if items[i].Some? && items[i].value.Ok? {
      var p := items[i].value.value;
      var next := Feed(items[i + 1..], policy);
      assert (sent + [p]) + next.sent == sent + ([p] + next.sent);
    }
  }

  /** The stream as the feeder sees it: each line parsed by `parse`, a read
      error kept as a read error. */
  function Parsed<P>(lines: seq<LineRead>, parse: string -> Outcome<P>): (items: seq<Item<P>>)
    ensures |items| == |lines|
    ensures forall i :: 0 <= i < |lines| ==>
      items[i] == if lines[i].ReadError? then None else Some(parse(lines[i].text))
  {
    seq(|lines|, i requires 0 <= i < |lines| => if lines[i].ReadError? then None else Some(parse(lines[i].text)))
  }

  /** The feeder's `for` loop over `reader.lines()`: a parsed line is sent, a
      read error ends the loop, a panic in the parser ends the thread, and a
      line that does not parse is skipped or panics as `policy` says. */
  method Run<P>(lines: seq<LineRead>, parse: string -> Outcome<P>, policy: ErrorPolicy)
    returns (sent: seq<P>, end: FeedEnd)
    ensures FeedRun(sent, end) == Feed(Parsed(lines, parse), policy)
  {
    ghost var items := Parsed(lines, parse);
    sent := [];
    end := SourceClosed;
    var i := 0;
    while i < |lines|
      invariant 0 <= i <= |lines|
      invariant Feed(items, policy) == Then(FeedRun(sent, SourceClosed), Feed(items[i..], policy))
    {
      Advance(items, i, sent, policy);
      match lines[i] {
        case ReadError =>
          end := ReadFailed;
          return;
        case Line(text) =>
          match parse(text) {
            case Ok(p) =>
              sent := sent + [p];
            case Err =>
              if policy == PanicOnError {
                end := FeederPanicked;
                return;
              }
            case Panic =>
              end := FeederPanicked;
              return;
          }
      }
      i := i + 1;
    }
    assert items[i..] == [];
    assert sent + [] == sent;
  }
}
