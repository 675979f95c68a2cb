/** One direction of a byte relay: the loop of io.Copy from a source to a
    destination, at the granularity of single reads and writes. */
module IoCopy {
  import opened Common

  type Byte = bv8

  /** The errors the relays tell apart.  `OpError` and `Wrapped` carry a cause. */
  datatype IoError =
    | Eof
    | NetClosed
    | ClosedPipe
    | OpError(cause: IoError)
    | Wrapped(cause: IoError)
    | Other(code: nat)

  /** How a copy stopped: at the source's end of file, because an endpoint was
      closed on this side while the copy was under way, or by a failure of its own. */
  datatype Ending = Clean | Interrupted | Failed(error: IoError)

  datatype Status = Running | Stopped(how: Ending)

  /** `src` is everything the source would deliver before its end of file. */
  datatype Pump = Pump(src: seq<Byte>, taken: nat, buf: seq<Byte>, dst: seq<Byte>, status: Status)

  datatype PumpStep =
    | Read(n: nat)
    | Write
    | EndOfFile
    | Interrupt(n: nat)
    | Fail(n: nat, error: IoError)

  /** A connection: whether its Close by itself ends a call pending on it, as for a socket, or
      only once the peer has answered, as for an SSH channel; whether this side has closed it;
      and whether the peer has answered that. */
  datatype Conn = Conn(prompt: bool, shut: bool, answered: bool) {
    /** Calls on the connection no longer wait for anything. */
    predicate Freed() { shut && Yields() }

    /** Closing it is, or will be, enough to free them. */
    predicate Yields() { prompt || answered }
  }

  function Start(src: seq<Byte>): Pump { Pump(src, 0, [], [], Running) }

  /** `srcShut`/`dstShut` say whether this side has closed the endpoint being read/written. */
  predicate CanStep(p: Pump, st: PumpStep, srcShut: bool, dstShut: bool) {
    && p.status.Running?
    && p.taken <= |p.src|
    && match st
       case Read(n) => p.buf == [] && 0 < n <= |p.src| - p.taken
       case Write => p.buf != []
       case EndOfFile => p.buf == [] && p.taken == |p.src|
       case Interrupt(n) => n <= |p.buf| && if p.buf == [] then srcShut else dstShut
       case Fail(n, _) => n <= |p.buf|
  }

  /** A write that stops early has still delivered `n` of the buffered bytes. */
  function Advance(p: Pump, st: PumpStep, srcShut: bool, dstShut: bool): Pump
    requires CanStep(p, st, srcShut, dstShut)
  {
    match st
    case Read(n) => p.(taken := p.taken + n, buf := p.src[p.taken..p.taken + n])
    case Write => p.(dst := p.dst + p.buf, buf := [])
    case EndOfFile => p.(status := Stopped(Clean))
    case Interrupt(n) => p.(dst := p.dst + p.buf[..n], buf := [], status := Stopped(Interrupted))
    case Fail(n, e) => p.(dst := p.dst + p.buf[..n], buf := [], status := Stopped(Failed(e)))
  }

  /** The error io.Copy hands back. */
  function CopyError(how: Ending): Option<IoError> {
    match how
    case Clean => None
    case Interrupted => Some(OpError(NetClosed))
    case Failed(e) => Some(e)
  }

  /** How a copy stops is what stopped it, a stop delivers what it says of the bytes held, and
      whatever is not a stop leaves the copy running. */
  lemma StopsAsTold(p: Pump, st: PumpStep, srcShut: bool, dstShut: bool)
    requires CanStep(p, st, srcShut, dstShut)
    ensures var q := Advance(p, st, srcShut, dstShut);
      && (q.status == Stopped(Clean) <==> st.EndOfFile?)
      && (q.status == Stopped(Interrupted) <==> st.Interrupt?)
      && (forall e :: q.status == Stopped(Failed(e)) <==> st.Fail? && st.error == e)
      && |q.dst| == |p.dst| + (match st case Write => |p.buf| case Interrupt(n) => n case Fail(n, _) => n case _ => 0)
      && (st.Read? ==> q.taken == p.taken + st.n && |q.buf| == st.n)
  {
  }

  /** What every read and write keeps: nothing is invented, lost or reordered. */
  predicate Sound(p: Pump) {
    && p.taken <= |p.src|
    && p.dst <= p.src
    && (p.status.Running? ==> p.dst + p.buf == p.src[..p.taken])
    && (p.status == Stopped(Clean) ==> p.dst == p.src)
  }

  lemma AdvanceKeepsSound(p: Pump, st: PumpStep, srcShut: bool, dstShut: bool)
    requires Sound(p) && CanStep(p, st, srcShut, dstShut)
    ensures Sound(Advance(p, st, srcShut, dstShut))
    ensures Advance(p, st, srcShut, dstShut).src == p.src
    ensures p.dst <= Advance(p, st, srcShut, dstShut).dst
  {
    assert p.src[..p.taken] == p.dst + p.buf;
    match st {
      case Read(n) =>
        assert p.src[..p.taken + n] == p.src[..p.taken] + p.src[p.taken..p.taken + n];
      case Write =>
      case EndOfFile =>
        assert p.dst == p.dst + p.buf == p.src[..p.taken] == p.src;
      case Interrupt(n) =>
        assert p.dst + p.buf[..n] <= p.dst + p.buf;
      case Fail(n, _) =>
        assert p.dst + p.buf[..n] <= p.dst + p.buf;
    }
  }
}
