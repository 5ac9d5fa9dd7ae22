/** The record the kernel probe hands to user space (ebpf/common/src/lib.rs). */
module Schema {
  import opened Text

  /** Bytes kept of each argument. */
  const ArgSize: nat := 16
  /** Arguments kept per execution. */
  const ArgCount: nat := 6
  /** Bytes of the task's command name. */
  const CommLen: nat := 16

  const U64Limit: nat := 0x1_0000_0000_0000_0000

  /** One observed `execve`: identity, command name and the first `ArgCount`
      arguments, each in a zero-filled slot of `ArgSize` bytes. */
  datatype Event = Event(
    timestamp: nat,          // nanoseconds since boot
    uid: nat,
    gid: nat,
    pid: nat,
    ppid: nat,
    comm: seq<byte>,
    args: seq<seq<byte>>)

  /** The fixed shape of the record: the integer widths of its fields and
      the exact sizes of its byte arrays. */
  predicate WellFormed(e: Event) {
    e.timestamp < U64Limit && e.uid < U32Limit && e.gid < U32Limit
    && e.pid < U32Limit && e.ppid < U32Limit
    && |e.comm| == CommLen && |e.args| == ArgCount
    && forall i :: 0 <= i < |e.args| ==> |e.args[i]| == ArgSize
  }

  /** Size of the record in memory: a `u64`, four `u32`, the command name and the slots. */
  const EventBytes: nat := 8 + 4 * 4 + CommLen + ArgCount * ArgSize

  /** The text of every slot, each followed by one space. */
  function SpacedEach(args: seq<seq<byte>>, text: seq<byte> -> string): (r: string)
    ensures |r| >= |args|
    decreases |args|
  {
    if args == [] then [] else text(args[0]) + " " + SpacedEach(args[1..], text)
  }

  /** Each slot decoded as UTF-8 (invalid ones as ""), each followed by one space. */
  function ArgsText(args: seq<seq<byte>>): string {
    SpacedEach(args, Lossy)
  }

  /** `impl Display for Event`: `comm (pid): ` and then every argument slot.
      Whatever the bytes, the text holds the pid, its punctuation and at
      least one space per slot. */
  function Display(e: Event): (r: string)
    ensures |r| >= |Decimal(e.pid)| + 4 + |e.args|
  {
    Lossy(e.comm) + " (" + Decimal(e.pid) + "): " + ArgsText(e.args)
  }

  lemma {:induction false} SpacedEachAppend(a: seq<seq<byte>>, b: seq<seq<byte>>, text: seq<byte> -> string)
    ensures SpacedEach(a + b, text) == SpacedEach(a, text) + SpacedEach(b, text)
    decreases |a|
  {
    if a == [] {
      assert a + b == b;
    } else {
      assert (a + b)[0] == a[0];
      assert (a + b)[1..] == a[1..] + b;
      SpacedEachAppend(a[1..], b, text);
      var head := text(a[0]) + " ";
      assert head + (SpacedEach(a[1..], text) + SpacedEach(b, text))
        == (head + SpacedEach(a[1..], text)) + SpacedEach(b, text);
    }
  }

  lemma SpacedEachCons(x: seq<byte>, rest: seq<seq<byte>>, text: seq<byte> -> string)
    ensures SpacedEach([x] + rest, text) == text(x) + " " + SpacedEach(rest, text)
  {
    assert ([x] + rest)[1..] == rest;
  }

  lemma Regroup(a: string, t: string, c: string)
    ensures a + (t + " " + c) == a + t + " " + c
  {
  }

  lemma Around<T>(s: seq<T>, i: nat)
    requires i < |s|
    ensures s == s[..i] + ([s[i]] + s[i + 1..])
  {
  }

  lemma {:induction false} SpacedEachAt(args: seq<seq<byte>>, text: seq<byte> -> string, i: nat)
    requires i < |args|
    ensures SpacedEach(args, text)
      == SpacedEach(args[..i], text) + text(args[i]) + " " + SpacedEach(args[i + 1..], text)
  {
    var pre := args[..i];
    var post := args[i + 1..];
    Around(args, i);
    SpacedEachAppend(pre, [args[i]] + post, text);
    SpacedEachCons(args[i], post, text);
    Regroup(SpacedEach(pre, text), text(args[i]), SpacedEach(post, text));
  }

  /** Every slot, empty or not, contributes its own text and one space. */
  lemma ArgsTextAt(args: seq<seq<byte>>, i: nat)
    requires i < |args|
    ensures ArgsText(args) == ArgsText(args[..i]) + Lossy(args[i]) + " " + ArgsText(args[i + 1..])
  {
    SpacedEachAt(args, Lossy, i);
  }

  /** A slot that is not UTF-8 contributes the space alone. */
  lemma InvalidSlotPrintsSpace(args: seq<seq<byte>>, i: nat)
    requires i < |args| && DecodeUtf8(args[i]).None?
    ensures ArgsText(args) == ArgsText(args[..i]) + " " + ArgsText(args[i + 1..])
  {
    ArgsTextAt(args, i);
    assert Lossy(args[i]) == [];
  }

  /** Slots of ASCII bytes print byte for byte, zero bytes included, at a
      fixed stride of `ArgSize + 1` characters. */
  lemma {:induction false} AsciiArgsLayout(args: seq<seq<byte>>)
    requires forall i :: 0 <= i < |args| ==> |args[i]| == ArgSize && IsAscii(args[i])
    ensures |ArgsText(args)| == |args| * 17
    ensures forall i, b :: 0 <= i < |args| && 0 <= b < ArgSize ==>
      ArgsText(args)[i * 17 + b] as int == args[i][b] as int
    ensures forall i :: 0 <= i < |args| ==> ArgsText(args)[i * 17 + ArgSize] == ' '
    decreases |args|
  {
    if args != [] {
      var rest := args[1..];
      AsciiArgsLayout(rest);
      AsciiDecodes(args[0]);
      var t := ArgsText(args);
      var head := Lossy(args[0]) + " ";
      assert t == head + ArgsText(rest);
      assert |head| == 17;
      forall i, b | 0 <= i < |args| && 0 <= b < ArgSize
        ensures t[i * 17 + b] as int == args[i][b] as int
      {
        if i > 0 {
          assert i * 17 + b == 17 + ((i - 1) * 17 + b);
          assert rest[i - 1] == args[i];
        }
      }
      forall i | 0 <= i < |args|
        ensures t[i * 17 + ArgSize] == ' '
      {
        if i > 0 {
          assert i * 17 + ArgSize == 17 + ((i - 1) * 17 + ArgSize);
        }
      }
    }
  }

  /** For a well-formed record whose buffers are all ASCII (a zeroed buffer
      is), the printed text holds the 16 command bytes, then ` (`, the pid,
      `): `, and then every slot in full followed by a space: no buffer is
      cut at its first zero byte. */
  lemma DisplayLayout(e: Event)
    requires WellFormed(e) && IsAscii(e.comm)
    requires forall i :: 0 <= i < ArgCount ==> IsAscii(e.args[i])
    ensures var p := CommLen + |Decimal(e.pid)| + 5;
      |Display(e)| == p + ArgCount * (ArgSize + 1)
      && (forall j :: 0 <= j < CommLen ==> Display(e)[j] as int == e.comm[j] as int)
      && Display(e)[CommLen..CommLen + 2] == " ("
      && Display(e)[CommLen + 2..p - 3] == Decimal(e.pid)
      && Display(e)[p - 3..p] == "): "
      && (forall i, b :: 0 <= i < ArgCount && 0 <= b < ArgSize ==>
            Display(e)[p + i * 17 + b] as int == e.args[i][b] as int)
      && (forall i :: 0 <= i < ArgCount ==> Display(e)[p + i * 17 + ArgSize] == ' ')
  {
    AsciiDecodes(e.comm);
    AsciiArgsLayout(e.args);
    var p := CommLen + |Decimal(e.pid)| + 5;
    var head := Lossy(e.comm) + " (" + Decimal(e.pid) + "): ";
    assert Display(e) == head + ArgsText(e.args);
    assert |head| == p;
    forall i, b | 0 <= i < ArgCount && 0 <= b < ArgSize
      ensures Display(e)[p + i * 17 + b] as int == e.args[i][b] as int
    {
      assert Display(e)[p + i * 17 + b] == ArgsText(e.args)[i * 17 + b];
    }
    forall i | 0 <= i < ArgCount
      ensures Display(e)[p + i * 17 + ArgSize] == ' '
    {
      assert Display(e)[p + i * 17 + ArgSize] == ArgsText(e.args)[i * 17 + ArgSize];
    }
  }

  /** A command name that is not UTF-8 prints as "", never as an error. */
  lemma InvalidCommPrintsEmpty(e: Event)
    requires DecodeUtf8(e.comm).None?
    ensures Display(e) == " (" + Decimal(e.pid) + "): " + ArgsText(e.args)
  {
  }
}
