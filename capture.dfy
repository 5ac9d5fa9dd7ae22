/** The `sys_enter_execve` tracepoint program (ebpf/ebpf-kernel/src/main.rs):
    it reads the identity of the current task, copies at most `ArgCount`
    arguments out of the traced process's memory into fixed slots, and
    publishes one `Event` on a ring buffer, or drops it when the ring is full.

    The kernel helpers are oracles: `Helpers` holds what each identity helper
    returns for the current task, and `UserMemory` says which user addresses
    can be read and what they hold. */
module Capture {
  import opened Wrappers
  import opened Text
  import opened Schema

  /** Size of a user pointer. */
  const PtrSize: nat := 8
  /** -EFAULT, returned by a user-memory read at an address that cannot be read. */
  const Efault: int := -14
  /** The error `ctx.read_at(0)` is mapped to when the tracepoint record cannot be read. */
  const ReadAtError: int := -1
  /** Byte size the ring map is declared with. The ring that results may be
      larger (ring buffers are sized in whole pages), so `RingBuf` takes its size. */
  const RingBytes: nat := 256
  /** Bytes one published record takes in the ring: an 8-byte record header and
      the `Event` (`EventBytes` is already a multiple of 8). */
  const FrameSize: nat := 8 + EventBytes

  /** What the identity helpers return for the current task. */
  datatype Helpers = Helpers(
    pidTgid: nat,                  // bpf_get_current_pid_tgid(): tgid << 32 | thread id
    uidGid: nat,                   // bpf_get_current_uid_gid(): gid << 32 | uid
    parentPid: int,                // real_parent->pid, a signed 32-bit pid_t
    ktimeNs: nat,                  // bpf_ktime_get_ns()
    comm: Fallible<seq<byte>>)     // bpf_get_current_comm()

  predicate HelpersWellFormed(h: Helpers) {
    h.pidTgid < U64Limit && h.uidGid < U64Limit && h.ktimeNs < U64Limit
    && -0x8000_0000 <= h.parentPid < 0x8000_0000
    && match h.comm
       case Done(c) => |c| == CommLen
       case Failed(code) => 0 < code + U32Limit && code < 0
  }

  /** The fields of the `SysEnterExecve` record the program uses. */
  datatype Tracepoint = Tracepoint(filename: nat, argv: nat, envp: nat)

  /** The traced process's memory as the probe sees it: the pointer stored at
      each readable address, and, at each readable string address, the bytes
      of the string before its terminating NUL. */
  datatype UserMemory = UserMemory(words: map<nat, nat>, strings: map<nat, CString>)

  /** The bytes of a C string before its terminator: never a zero byte. */
  type CString = s: seq<byte> | 0 !in s

  // ---------------------------------------------------------------------------
  // Identity arithmetic
  // ---------------------------------------------------------------------------

  /** `x as u32`: the low 32 bits. */
  function Low32(x: nat): (r: nat)
    ensures r < U32Limit
  {
    x % 0x1_0000_0000
  }

  /** `(x >> 32) as u32` for a 64-bit `x`: the high 32 bits. */
  function High32(x: nat): (r: nat)
    ensures x < U64Limit ==> r < U32Limit
    ensures r * U32Limit + Low32(x) == x
  {
    x / 0x1_0000_0000
  }

  /** `v as u32` for a signed value: two's-complement truncation to 32 bits. */
  function AsU32(v: int): (r: nat)
    ensures r < U32Limit
    ensures 0 <= v < U32Limit ==> r == v
    ensures 0 <= v + U32Limit && v < 0 ==> r == v + U32Limit
  {
    v % 0x1_0000_0000
  }

  // ---------------------------------------------------------------------------
  // User-memory helpers
  // ---------------------------------------------------------------------------

  /** `bpf_probe_read_user(argv.offset(i))`: the i-th pointer of argv. */
  function ArgPtr(mem: UserMemory, argv: nat, i: nat): Fallible<nat> {
    var addr := argv + PtrSize * i;
    if addr in mem.words then Done(mem.words[addr]) else Failed(Efault)
  }

  function Zeros(n: nat): (z: seq<byte>)
    ensures |z| == n && forall i :: 0 <= i < n ==> z[i] == 0
  {
    seq(n, _ => 0)
  }

  /** Byte `b` of a slot after `bpf_probe_read_user_str_bytes(p, slot)` when it
      held `prior` before: the string truncated to `ArgSize - 1` bytes, then a
      NUL, then what was there; a failed read zeroes the slot. */
  function CopiedByte(mem: UserMemory, p: nat, b: nat, prior: byte): byte
    requires b < ArgSize
  {
    if p !in mem.strings then 0
    else
      var s := mem.strings[p];
      var n := if |s| < ArgSize - 1 then |s| else ArgSize - 1;
      if b < n then s[b] else if b == n then 0 else prior
  }

  /** A zeroed slot after the string at `p` was copied into it. */
  function StrSlot(mem: UserMemory, p: nat): (slot: seq<byte>)
    ensures |slot| == ArgSize && slot[ArgSize - 1] == 0
    ensures p !in mem.strings ==> slot == Zeros(ArgSize)
    ensures p in mem.strings ==>
      var s := mem.strings[p];
      if |s| < ArgSize then slot == s + Zeros(ArgSize - |s|)
      else slot == s[..ArgSize - 1] + [0]
  {
    seq(ArgSize, b requires 0 <= b < ArgSize => CopiedByte(mem, p, b, 0))
  }

  /** The helper itself, writing into row `row` of the argument buffer. Its
      result says whether the copy succeeded. */
  method ProbeReadUserStr(mem: UserMemory, p: nat, args: array2<byte>, row: nat) returns (ok: bool)
    requires row < args.Length0 && args.Length1 == ArgSize
    modifies args
    ensures ok == (p in mem.strings)
    ensures forall r, b :: 0 <= r < args.Length0 && 0 <= b < ArgSize ==>
      args[r, b] == if r == row then CopiedByte(mem, p, b, old(args[r, b])) else old(args[r, b])
  {
    ok := p in mem.strings;
    forall b | 0 <= b < ArgSize {
      args[row, b] := CopiedByte(mem, p, b, args[row, b]);
    }
  }

  // ---------------------------------------------------------------------------
  // The argument loop, as a specification
  // ---------------------------------------------------------------------------

  /** The index at which the loop starting at `i` stops: the first pointer that
      cannot be read or is null, or `ArgCount`. */
  function StopIndex(mem: UserMemory, argv: nat, i: nat): (k: nat)
    requires i <= ArgCount
    ensures i <= k <= ArgCount
    ensures forall j :: i <= j < k ==> ArgPtr(mem, argv, j).Done? && ArgPtr(mem, argv, j).value != 0
    ensures k < ArgCount ==> ArgPtr(mem, argv, k).Failed? || ArgPtr(mem, argv, k).value == 0
    decreases ArgCount - i
  {
    if i == ArgCount then i
    else match ArgPtr(mem, argv, i)
      case Done(p) => if p == 0 then i else StopIndex(mem, argv, i + 1)
      case Failed(_) => i
  }

  /** The argument slots, or the error of the pointer read that failed. */
  function ArgSlots(mem: UserMemory, argv: nat): Fallible<seq<seq<byte>>> {
    var k := StopIndex(mem, argv, 0);
    if k < ArgCount && ArgPtr(mem, argv, k).Failed? then Failed(ArgPtr(mem, argv, k).code)
    else Done(seq(ArgCount, j requires 0 <= j < ArgCount =>
                if j < k then StrSlot(mem, ArgPtr(mem, argv, j).value) else Zeros(ArgSize)))
  }

  /** The event `try_enter_execve` builds, or the error it returns. */
  function CaptureEvent(h: Helpers, ctx: Option<Tracepoint>, mem: UserMemory): (r: Fallible<Event>)
    requires HelpersWellFormed(h)
    ensures r.Done? ==> WellFormed(r.value)
    ensures h.comm.Failed? ==> r == Failed(h.comm.code)
    ensures h.comm.Done? && ctx.None? ==> r == Failed(ReadAtError)
    ensures r.Failed? ==> 0 < r.code + U32Limit && r.code < 0
  {
    match h.comm
    case Failed(code) => Failed(code)
    case Done(comm) =>
      match ctx
      case None => Failed(ReadAtError)
      case Some(tp) =>
        match ArgSlots(mem, tp.argv)
        case Failed(code) => Failed(code)
        case Done(args) =>
          Done(Event(h.ktimeNs, Low32(h.uidGid), High32(h.uidGid), High32(h.pidTgid),
                     AsU32(h.parentPid), comm, args))
  }

  // ---------------------------------------------------------------------------
  // The ring buffer
  // ---------------------------------------------------------------------------

  /** The `RINGBUF` map: records that were published and not yet consumed,
      oldest first, plus reservations not yet published. */
  class RingBuf {
    const byteSize: nat
    var frames: seq<Event>
    var reserved: nat

    ghost predicate Valid()
      reads this
    {
      (|frames| + reserved) * FrameSize <= byteSize
    }

    /** Whether one more record fits. */
    predicate HasRoom()
      reads this
    {
      (|frames| + reserved + 1) * FrameSize <= byteSize
    }

    constructor (byteSize: nat)
      ensures Valid() && this.byteSize == byteSize && frames == [] && reserved == 0
    {
      this.byteSize := byteSize;
      frames := [];
      reserved := 0;
    }

    /** `reserve`: claims room for one record, or fails at once when there is none. */
    method Reserve() returns (ok: bool)
      requires Valid()
      modifies this
      ensures Valid() && ok == old(HasRoom()) && frames == old(frames)
      ensures reserved == if ok then old(reserved) + 1 else old(reserved)
    {
      ok := HasRoom();
      if ok {
        reserved := reserved + 1;
      }
    }

    /** `write` and `submit` on a reservation: the record becomes visible to the consumer. */
    method Commit(e: Event)
      requires Valid() && reserved > 0
      modifies this
      ensures Valid() && frames == old(frames) + [e] && reserved == old(reserved) - 1
    {
      frames := frames + [e];
      reserved := reserved - 1;
    }

    /** The consumer side: takes the oldest published record, if any. */
    method Next() returns (e: Option<Event>)
      requires Valid()
      modifies this
      ensures Valid() && reserved == old(reserved)
      ensures old(frames) == [] ==> e == None && frames == []
      ensures old(frames) != [] ==> e == Some(old(frames)[0]) && frames == old(frames)[1..]
    {
      if frames == [] {
        e := None;
      } else {
        e := Some(frames[0]);
        frames := frames[1..];
      }
    }
  }

  /** `k` records fit in `size` bytes exactly when `k` is at most the number
      of whole frames `size` holds. */
  lemma {:induction false} FramesFit(k: nat, size: nat)
    ensures k * FrameSize <= size <==> k <= size / FrameSize
  {
    var q, r := size / FrameSize, size % FrameSize;
    assert size == q * FrameSize + r && r < FrameSize;
    if k <= q {
      assert k * FrameSize <= q * FrameSize;
    } else {
      assert k * FrameSize >= (q + 1) * FrameSize;
    }
  }

  /** A ring of `byteSize` bytes holds at most `byteSize / FrameSize` records
      at a time, published or reserved, and takes another exactly while it
      holds fewer: beyond that, events are dropped until the consumer catches up. */
  lemma RingCapacity(ring: RingBuf)
    requires ring.Valid()
    ensures |ring.frames| + ring.reserved <= ring.byteSize / FrameSize
    ensures ring.HasRoom() <==> |ring.frames| + ring.reserved < ring.byteSize / FrameSize
  {
    FramesFit(|ring.frames| + ring.reserved, ring.byteSize);
    FramesFit(|ring.frames| + ring.reserved + 1, ring.byteSize);
  }

  /** `submit`: reserve, write, publish; if nothing can be reserved the event
      is dropped without blocking or retrying. */
  method Submit(ring: RingBuf, e: Event)
    requires ring.Valid()
    modifies ring
    ensures ring.Valid() && ring.reserved == old(ring.reserved)
    ensures ring.frames == if old(ring.HasRoom()) then old(ring.frames) + [e] else old(ring.frames)
  {
    var ok := ring.Reserve();
    if ok {
      ring.Commit(e);
    }
  }

  // ---------------------------------------------------------------------------
  // The program
  // ---------------------------------------------------------------------------

  function Rows(a: array2<byte>): (rows: seq<seq<byte>>)
    reads a
    ensures |rows| == a.Length0
    ensures forall j, b :: 0 <= j < a.Length0 && 0 <= b < a.Length1 ==> |rows[j]| == a.Length1 && rows[j][b] == a[j, b]
  {
    seq(a.Length0, j requires 0 <= j < a.Length0 reads a =>
      seq(a.Length1, b requires 0 <= b < a.Length1 reads a => a[j, b]))
  }

  /** `try_enter_execve`: `Done(0)` after an event was built (whether or not the
      ring took it), or the error of the first read that failed. */
  method TryEnterExecve(h: Helpers, ctx: Option<Tracepoint>, mem: UserMemory, ring: RingBuf)
    returns (r: Fallible<nat>)
    requires HelpersWellFormed(h) && ring.Valid()
    modifies ring
    ensures ring.Valid() && ring.reserved == old(ring.reserved)
    ensures CaptureEvent(h, ctx, mem).Failed? ==>
      r == Failed(CaptureEvent(h, ctx, mem).code) && ring.frames == old(ring.frames)
    ensures CaptureEvent(h, ctx, mem).Done? ==>
      r == Done(0)
      && ring.frames == if old(ring.HasRoom()) then old(ring.frames) + [CaptureEvent(h, ctx, mem).value]
                        else old(ring.frames)
  {
    var pid := h.pidTgid / 0x1_0000_0000;
    var uid := h.uidGid % 0x1_0000_0000;
    var gid := h.uidGid / 0x1_0000_0000;
    var ppid := h.parentPid % 0x1_0000_0000;
    var timestamp := h.ktimeNs;

    if h.comm.Failed? {
      return Failed(h.comm.code);
    }
    var comm := h.comm.value;

    var args := new byte[ArgCount, ArgSize]((_, _) => 0);

    if ctx.None? {
      return Failed(ReadAtError);
    }
    var argv := ctx.value.argv;
    ghost var stop := StopIndex(mem, argv, 0);

    var i := 0;
    while i < ArgCount
      invariant 0 <= i <= stop
      modifies args
      invariant forall j, b :: 0 <= j < ArgCount && 0 <= b < ArgSize ==>
        args[j, b] == if j < i then StrSlot(mem, ArgPtr(mem, argv, j).value)[b] else 0
    {
      var p := ArgPtr(mem, argv, i);
      if p.Failed? {
        return Failed(p.code);
      }
      if p.value == 0 {
        break;
      }
      var _ := ProbeReadUserStr(mem, p.value, args, i);
      i := i + 1;
    }
    assert i == stop;

    var event := Event(timestamp, uid, gid, pid, ppid, comm, Rows(args));
    assert stop < ArgCount ==> ArgPtr(mem, argv, stop) == Done(0);
    ghost var slots := ArgSlots(mem, argv).value;
    forall j | 0 <= j < ArgCount
      ensures event.args[j] == slots[j]
    {
      forall b | 0 <= b < ArgSize
        ensures event.args[j][b] == slots[j][b]
      {
      }
    }
    assert |event.args| == ArgCount == |slots|;
    assert event.args == slots;
    Submit(ring, event);
    return Done(0);
  }

  /** `sys_enter_execve`'s return value: the `Ok` value, or the error code cast to `u32`. */
  function ExitCode(r: Fallible<nat>): (code: nat)
    ensures r.Done? && r.value < U32Limit ==> code == r.value
    ensures r.Failed? && 0 < r.code + U32Limit && r.code < 0 ==> code == r.code + U32Limit && code != 0
  {
    match r
    case Done(v) => v
    case Failed(c) => AsU32(c)
  }

  method SysEnterExecve(h: Helpers, ctx: Option<Tracepoint>, mem: UserMemory, ring: RingBuf)
    returns (code: nat)
    requires HelpersWellFormed(h) && ring.Valid()
    modifies ring
    ensures ring.Valid() && ring.reserved == old(ring.reserved)
    ensures code == 0 <==> CaptureEvent(h, ctx, mem).Done?
    ensures ring.frames == if CaptureEvent(h, ctx, mem).Done? && old(ring.HasRoom())
                           then old(ring.frames) + [CaptureEvent(h, ctx, mem).value]
                           else old(ring.frames)
  {
    var r := TryEnterExecve(h, ctx, mem, ring);
    code := ExitCode(r);
  }

  // ---------------------------------------------------------------------------
  // Properties of the capture
  // ---------------------------------------------------------------------------

  /** The loop stops exactly at the first null or unreadable pointer. */
  lemma {:induction false} StopIndexIs(mem: UserMemory, argv: nat, i: nat, k: nat)
    requires i <= k <= ArgCount
    requires forall j :: i <= j < k ==> ArgPtr(mem, argv, j).Done? && ArgPtr(mem, argv, j).value != 0
    requires k < ArgCount ==> ArgPtr(mem, argv, k).Failed? || ArgPtr(mem, argv, k).value == 0
    ensures StopIndex(mem, argv, i) == k
    decreases k - i
  {
    if i < k {
      StopIndexIs(mem, argv, i + 1, k);
    }
  }

  /** `k < ArgCount` readable non-null pointers and then a null one: slots
      `0..k-1` hold the copied strings and every later slot stays zero. */
  lemma ArgvStopsAtNull(mem: UserMemory, argv: nat, k: nat)
    requires k < ArgCount
    requires forall j :: 0 <= j < k ==> ArgPtr(mem, argv, j).Done? && ArgPtr(mem, argv, j).value != 0
    requires ArgPtr(mem, argv, k) == Done(0)
    ensures ArgSlots(mem, argv).Done?
    ensures forall j :: 0 <= j < k ==> ArgSlots(mem, argv).value[j] == StrSlot(mem, ArgPtr(mem, argv, j).value)
    ensures forall j :: k <= j < ArgCount ==> ArgSlots(mem, argv).value[j] == Zeros(ArgSize)
  {
    StopIndexIs(mem, argv, 0, k);
  }

  /** `ArgCount` readable non-null pointers fill every slot. */
  lemma ArgvFull(mem: UserMemory, argv: nat)
    requires forall j :: 0 <= j < ArgCount ==> ArgPtr(mem, argv, j).Done? && ArgPtr(mem, argv, j).value != 0
    ensures ArgSlots(mem, argv).Done?
    ensures forall j :: 0 <= j < ArgCount ==> ArgSlots(mem, argv).value[j] == StrSlot(mem, ArgPtr(mem, argv, j).value)
  {
    StopIndexIs(mem, argv, 0, ArgCount);
  }

  lemma {:induction false} StopIndexFrame(m1: UserMemory, m2: UserMemory, argv: nat, i: nat)
    requires i <= ArgCount
    requires forall j :: 0 <= j < ArgCount ==> ArgPtr(m1, argv, j) == ArgPtr(m2, argv, j)
    ensures StopIndex(m1, argv, i) == StopIndex(m2, argv, i)
    decreases ArgCount - i
  {
    if i < ArgCount {
      StopIndexFrame(m1, m2, argv, i + 1);
    }
  }

  /** Nothing beyond the first `ArgCount` entries of argv is ever read: two
      memories that agree on those entries and on the strings give the same slots. */
  lemma ArgvReadsOnlyArgCountPointers(m1: UserMemory, m2: UserMemory, argv: nat)
    requires forall j :: 0 <= j < ArgCount ==> ArgPtr(m1, argv, j) == ArgPtr(m2, argv, j)
    requires m1.strings == m2.strings
    ensures ArgSlots(m1, argv) == ArgSlots(m2, argv)
  {
    StopIndexFrame(m1, m2, argv, 0);
    var k := StopIndex(m1, argv, 0);
    if k < ArgCount {
      assert ArgPtr(m1, argv, k) == ArgPtr(m2, argv, k);
    }
    if ArgSlots(m1, argv).Done? {
      var s1, s2 := ArgSlots(m1, argv).value, ArgSlots(m2, argv).value;
      forall j | 0 <= j < ArgCount ensures s1[j] == s2[j] {
        assert ArgPtr(m1, argv, j) == ArgPtr(m2, argv, j);
      }
      assert s1 == s2;
    }
  }

  /** A pointer read that fails after `k` good pointers aborts the argument
      loop, and with it the whole event, with that read's error. */
  lemma PointerFaultAborts(h: Helpers, tp: Tracepoint, mem: UserMemory, k: nat)
    requires HelpersWellFormed(h) && h.comm.Done?
    requires k < ArgCount
    requires forall j :: 0 <= j < k ==> ArgPtr(mem, tp.argv, j).Done? && ArgPtr(mem, tp.argv, j).value != 0
    requires ArgPtr(mem, tp.argv, k).Failed?
    ensures CaptureEvent(h, Some(tp), mem) == Failed(Efault)
  {
    StopIndexIs(mem, tp.argv, 0, k);
  }

  /** A string that cannot be copied leaves its slot zero and the loop goes on
      to the next pointer. */
  lemma FailedCopyIsSwallowed(mem: UserMemory, argv: nat, j: nat)
    requires j < ArgCount
    requires forall i :: 0 <= i <= j ==> ArgPtr(mem, argv, i).Done? && ArgPtr(mem, argv, i).value != 0
    requires ArgPtr(mem, argv, j).value !in mem.strings
    ensures StopIndex(mem, argv, 0) > j
    ensures ArgSlots(mem, argv).Done? ==> ArgSlots(mem, argv).value[j] == Zeros(ArgSize)
  {
    var k := StopIndex(mem, argv, 0);
    assert k < ArgCount ==> ArgPtr(mem, argv, k).Failed? || ArgPtr(mem, argv, k).value == 0;
  }

  /** The identity fields are the halves of the helpers' 64-bit words. */
  lemma IdentityFields(h: Helpers, ctx: Option<Tracepoint>, mem: UserMemory)
    requires HelpersWellFormed(h) && CaptureEvent(h, ctx, mem).Done?
    ensures var e := CaptureEvent(h, ctx, mem).value;
      e.pid * U32Limit + Low32(h.pidTgid) == h.pidTgid
      && e.gid * U32Limit + e.uid == h.uidGid
      && (h.parentPid >= 0 ==> e.ppid == h.parentPid)
      && e.timestamp == h.ktimeNs && e.comm == h.comm.value
  {
  }

  /** `envp` is never read: the event does not depend on it. */
  lemma EnvironmentIgnored(h: Helpers, tp: Tracepoint, mem: UserMemory, envp: nat)
    requires HelpersWellFormed(h)
    ensures CaptureEvent(h, Some(tp), mem) == CaptureEvent(h, Some(tp.(envp := envp)), mem)
  {
  }
}
