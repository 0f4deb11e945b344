/**
 * Stand-ins for the runtime's term layer: the values a port task receives
 * in its mailbox, parses as settings, and hands to its driver.
 */
module Terms {

  newtype byte = b: int | 0 <= b < 256

  /**
   * A `java.nio.ByteBuffer` seen as a value: its backing bytes (from the
   * array offset on), its position and its limit. The capacity is `|bytes|`.
   */
  datatype Buffer = Buffer(bytes: seq<byte>, position: nat, limit: nat) {

    predicate Valid() {
      position <= limit <= |bytes|
    }

    /** The bytes written so far: everything before the position. */
    function Written(): (w: seq<byte>)
      requires position <= |bytes|
      ensures |w| == position
    {
      bytes[..position]
    }
  }

  /** The runtime's shared empty byte buffer. */
  const EmptyBuffer: Buffer := Buffer([], 0, 0)

  /** The three closures a port task posts to its own mailbox. */
  datatype Action =
    | CommandAction(out: seq<Buffer>)
    | ReadyAction(channel: nat, readyOps: bv32)
    | ReleasedAction(channel: nat)

  /** Erlang terms, as far as the port task inspects them. */
  datatype Term =
    | Atom(name: string)
    | Int(value: int)
    | Str(text: string)
    | Pid(pid: nat)
    | Port(port: nat)
    | Tuple(elems: seq<Term>)
    | Nil
    | Cons(head: Term, tail: Term)
    | Binary(bytes: seq<byte>)
    | PortControl(action: Action)

  /** A list ending in `[]`. */
  predicate ProperList(t: Term) {
    match t
    case Nil => true
    case Cons(_, tl) => ProperList(tl)
    case _ => false
  }

  /** The heads of the cons cells reachable from `t`, up to the first non-cons tail. */
  function Heads(t: Term): seq<Term> {
    match t
    case Cons(h, tl) => [h] + Heads(tl)
    case _ => []
  }
}
