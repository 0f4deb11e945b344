/**
 * The message loop of a port driver task, as a specification: what one
 * mailbox message does to the task (its owner and the record of what it
 * asked of its driver and of other processes), and how a run over the
 * mailbox ends. The imperative loop is `DriverTasks.DriverTask.MainLoop`.
 *
 * The driver instance is abstract: every call on it is recorded in the
 * event log, and the driver raises `faults[k]` on the call recorded at
 * position `k` of the log, if that key is present.
 */
module PortLoop {
  import opened Wrappers
  import opened Terms

  /** The exceptions the loop can end with. */
  datatype Exception =
    | ErlangError(reason: Term, args: seq<Term>)  // an ErlangException
    | ExitSignal(reason: Term)                    // an ErlangExitSignal
    | Throwable(description: string, trace: Term) // any other Java exception, described and with its decoded trace

  /** The calls a port task makes on its driver instance. */
  datatype DriverCall =
    | Output(data: Buffer)
    | Outputv(pieces: seq<Buffer>)
    | DrvControl(op: int, data: Buffer)
    | DrvCall(op: int, arg: Term)
    | ReadyInput(channel: nat)
    | ReadyOutput(channel: nat)
    | ReadyConnect(channel: nat)
    | ReadyAccept(channel: nat)
    | StopSelect(channel: nat)
    | Stop

  /** What the task has done, in order. */
  datatype Event =
    | Driver(call: DriverCall)
    | Sent(to: nat, msg: Term)
    | ExitToLinked(reason: Term)

  /**
   * What the loop cannot change: the task's own port, the term layer's
   * `collectIOList` (the pieces of an iolist, or None when it is not one),
   * and the driver's faults.
   */
  datatype Context = Context(port: nat, collect: Term -> Option<seq<Buffer>>, faults: map<nat, Exception>)

  /** The part of the task the loop updates. */
  datatype LoopState = LoopState(owner: nat, events: seq<Event>)

  /** How a run of the loop ended; `Suspended` means it is waiting for another message. */
  datatype Outcome = Returned | Raised(e: Exception) | Suspended

  /** The effect of one message: go on with the next one, or leave the loop. */
  datatype Step = Continue(st: LoopState) | Exit(st: LoopState, outcome: Outcome)

  /** The readiness masks of the driver interface (`java.nio` `SelectionKey` values). */
  const ErlDrvRead: bv32 := 1
  const ErlDrvWrite: bv32 := 4
  const ErlDrvConnect: bv32 := 8
  const ErlDrvAccept: bv32 := 16

  /** One driver call: it is recorded, then it returns or raises its fault. */
  function Invoke(ctx: Context, st: LoopState, c: DriverCall): (r: Step)
    ensures r.st == st.(events := st.events + [Driver(c)])
    ensures r.Exit? <==> |st.events| in ctx.faults
    ensures r.Exit? ==> r.outcome == Raised(ctx.faults[|st.events|])
  {
    var st' := st.(events := st.events + [Driver(c)]);
    if |st.events| in ctx.faults then Exit(st', Raised(ctx.faults[|st.events|])) else Continue(st')
  }

  /** Driver calls made one after another; the first fault ends the sequence. */
  function InvokeAll(ctx: Context, st: LoopState, calls: seq<DriverCall>): (r: Step)
    ensures r.st.owner == st.owner
    ensures r.Exit? ==> r.outcome.Raised?
    decreases |calls|
  {
    if calls == [] then Continue(st)
    else match Invoke(ctx, st, calls[0])
      case Continue(st') => InvokeAll(ctx, st', calls[1..])
      case Exit(st', o) => Exit(st', o)
  }

  /** How a list of pieces goes to the driver: the empty buffer, the single piece, or all pieces at once. */
  function OutputCall(out: seq<Buffer>): DriverCall {
    if |out| == 0 then Output(EmptyBuffer)
    else if |out| == 1 then Output(out[0])
    else Outputv(out)
  }

  /** The buffers a driver output call hands over. */
  function Delivered(c: DriverCall): seq<Buffer> {
    match c
    case Output(b) => [b]
    case Outputv(bs) => bs
    case _ => []
  }

  /** The callback `c` when `flag` is fully set in `readyOps`. */
  function ReadyIf(readyOps: bv32, flag: bv32, c: DriverCall): seq<DriverCall> {
    if readyOps & flag == flag then [c] else []
  }

  /** The readiness callbacks for `readyOps`, for the flags fully set in it. */
  function ReadyCalls(channel: nat, readyOps: bv32): seq<DriverCall> {
    ReadyIf(readyOps, ErlDrvRead, ReadyInput(channel)) +
    (ReadyIf(readyOps, ErlDrvWrite, ReadyOutput(channel)) +
     (ReadyIf(readyOps, ErlDrvConnect, ReadyConnect(channel)) +
      ReadyIf(readyOps, ErlDrvAccept, ReadyAccept(channel))))
  }

  /** The driver calls a posted closure makes when the loop runs it. */
  function ActionCalls(a: Action): seq<DriverCall> {
    match a
    case CommandAction(out) => [OutputCall(out)]
    case ReadyAction(ch, ops) => ReadyCalls(ch, ops)
    case ReleasedAction(ch) => [StopSelect(ch)]
  }

  /** The error `badsig` carrying the offending message. */
  function BadsigError(msg: Term): Exception {
    ErlangError(Atom("badsig"), [msg])
  }

  function Badsig(st: LoopState, msg: Term): Step {
    Exit(st, Raised(BadsigError(msg)))
  }

  /** The message `{Port, connected}` sent to the previous owner. */
  function Connected(ctx: Context): Term {
    Tuple([Port(ctx.port), Atom("connected")])
  }

  /** The second element `body` of a 2-tuple message `msg`. */
  function DispatchEnvelope(ctx: Context, st: LoopState, msg: Term, body: Term): (r: Step)
    ensures r.Exit? ==> !r.outcome.Suspended?
  {
    if body.Tuple? && |body.elems| == 2 then
      var tag, arg := body.elems[0], body.elems[1];
      if tag == Atom("command") then
        match ctx.collect(arg)
        case Some(out) => Invoke(ctx, st, OutputCall(out))
        case None => Continue(st)
      else if tag == Atom("connect") then
        if arg.Pid? then
          Continue(LoopState(arg.pid, st.events + [Sent(st.owner, Connected(ctx))]))
        else Badsig(st, msg)
      else Badsig(st, msg)
    else if body == Atom("close") then Exit(st, Returned)
    else Badsig(st, msg)
  }

  /** One turn of the loop on message `msg`. */
  function Dispatch(ctx: Context, st: LoopState, msg: Term): (r: Step)
    ensures r.Exit? ==> !r.outcome.Suspended?
  {
    if msg.Tuple? && |msg.elems| == 2 then DispatchEnvelope(ctx, st, msg, msg.elems[1])
    else if msg.PortControl? then InvokeAll(ctx, st, ActionCalls(msg.action))
    else if msg.Tuple? && |msg.elems| == 3 && msg.elems[0] == Atom("EXIT") then Exit(st, Returned)
    else Badsig(st, msg)
  }

  /** Where a run of the loop stopped: the state, the outcome and the messages left unread. */
  datatype RunResult = RunResult(st: LoopState, outcome: Outcome, rest: seq<Term>)

  /** The loop over the mailbox, until it leaves or the mailbox is empty. */
  function Run(ctx: Context, st: LoopState, mbox: seq<Term>): (r: RunResult)
    ensures |r.rest| <= |mbox| && r.rest == mbox[|mbox| - |r.rest|..]
    ensures r.outcome.Suspended? ==> r.rest == []
    decreases |mbox|
  {
    if mbox == [] then RunResult(st, Suspended, [])
    else match Dispatch(ctx, st, mbox[0])
      case Continue(st') => Run(ctx, st', mbox[1..])
      case Exit(st', o) => RunResult(st', o, mbox[1..])
  }

  /** The exit reason a finished loop is reported with. */
  function ExitReason(o: Outcome): Term
    requires !o.Suspended?
  {
    match o
    case Returned => Atom("normal")
    case Raised(ErlangError(reason, _)) => reason
    case Raised(ExitSignal(reason)) => reason
    case Raised(Throwable(d, trace)) => Tuple([Tuple([Atom("java_exception"), Str(d)]), trace])
  }

  // ---------------------------------------------------------------------
  // Properties of the loop
  // ---------------------------------------------------------------------

  /** The message shapes the loop understands. */
  predicate Recognized(msg: Term) {
    match msg
    case PortControl(_) => true
    case Tuple(es) =>
      (|es| == 3 && es[0] == Atom("EXIT")) ||
      (|es| == 2 &&
        (es[1] == Atom("close") ||
         (es[1].Tuple? && |es[1].elems| == 2 &&
           (es[1].elems[0] == Atom("command") || (es[1].elems[0] == Atom("connect") && es[1].elems[1].Pid?)))))
    case _ => false
  }

  /**
   * A message the loop does not understand ends it with `badsig` carrying
   * that message and nothing else done; every other message is handled.
   */
  lemma BadsigIff(ctx: Context, st: LoopState, msg: Term)
    ensures Dispatch(ctx, st, msg) == Badsig(st, msg) <==> !Recognized(msg)
  {
    if msg.PortControl? {
      InvokeAllGrows(ctx, st, ActionCalls(msg.action));
    }
  }

  /** No driver call recorded at a log position in [lo, hi) raises. */
  predicate NoFault(ctx: Context, lo: int, hi: int) {
    forall k :: lo <= k < hi ==> k !in ctx.faults
  }

  /** The log entries of a sequence of driver calls. */
  function Logged(calls: seq<DriverCall>): (r: seq<Event>)
    ensures |r| == |calls|
    decreases |calls|
  {
    if calls == [] then [] else [Driver(calls[0])] + Logged(calls[1..])
  }

  /** Calls `a` then calls `b`: `b` is made only when every call of `a` returned. */
  lemma {:induction false} InvokeAllAppend(ctx: Context, st: LoopState, a: seq<DriverCall>, b: seq<DriverCall>)
    ensures InvokeAll(ctx, st, a + b) ==
      match InvokeAll(ctx, st, a)
      case Continue(st') => InvokeAll(ctx, st', b)
      case Exit(st', o) => Exit(st', o)
    decreases |a|
  {
    if a == [] {
      assert a + b == b;
    } else {
      assert (a + b)[0] == a[0];
      assert (a + b)[1..] == a[1..] + b;
      match Invoke(ctx, st, a[0])
      case Continue(st1) => InvokeAllAppend(ctx, st1, a[1..], b);
      case Exit(_, _) =>
    }
  }

  /** A nonempty sequence of driver calls records at least one call, whether or not it raises. */
  lemma {:induction false} InvokeAllGrows(ctx: Context, st: LoopState, calls: seq<DriverCall>)
    ensures var r := InvokeAll(ctx, st, calls);
      st.events <= r.st.events && (calls != [] ==> |r.st.events| > |st.events|)
    decreases |calls|
  {
    if calls != [] {
      match Invoke(ctx, st, calls[0])
      case Continue(st1) => InvokeAllGrows(ctx, st1, calls[1..]);
      case Exit(_, _) =>
    }
  }

  /** The first of a sequence of calls returns: the rest are made from the state it left. */
  lemma InvokeAllStep(ctx: Context, st: LoopState, calls: seq<DriverCall>)
    requires calls != [] && |st.events| !in ctx.faults
    ensures InvokeAll(ctx, st, calls) == InvokeAll(ctx, LoopState(st.owner, st.events + [Driver(calls[0])]), calls[1..])
  {
  }

  /** Driver calls made in sequence, none of which raises, are all recorded, in order. */
  lemma {:induction false} InvokeAllRecords(ctx: Context, st: LoopState, calls: seq<DriverCall>)
    requires NoFault(ctx, |st.events|, |st.events| + |calls|)
    ensures InvokeAll(ctx, st, calls) == Continue(st.(events := st.events + Logged(calls)))
    decreases |calls|
  {
    if calls != [] {
      var k := |st.events|;
      var st1 := LoopState(st.owner, st.events + [Driver(calls[0])]);
      assert k !in ctx.faults;
      InvokeAllStep(ctx, st, calls);
      assert NoFault(ctx, |st1.events|, |st1.events| + |calls[1..]|);
      InvokeAllRecords(ctx, st1, calls[1..]);
      assert st1.events + Logged(calls[1..]) == st.events + Logged(calls) by {
        assert Logged(calls) == [Driver(calls[0])] + Logged(calls[1..]);
      }
    }
  }

  /** Driver calls made in sequence, one of which raises, end the sequence with a fault. */
  lemma {:induction false} InvokeAllFaultExits(ctx: Context, st: LoopState, calls: seq<DriverCall>)
    requires !NoFault(ctx, |st.events|, |st.events| + |calls|)
    ensures InvokeAll(ctx, st, calls).Exit?
    decreases |calls|
  {
    var k := |st.events|;
    var st1 := LoopState(st.owner, st.events + [Driver(calls[0])]);
    if k !in ctx.faults {
      InvokeAllStep(ctx, st, calls);
      var j :| k <= j < k + |calls| && j in ctx.faults;
      assert k + 1 <= j < |st1.events| + |calls[1..]|;
      InvokeAllFaultExits(ctx, st1, calls[1..]);
    }
  }

  /**
   * When the call recorded at log position `p` is the first of the sequence
   * to raise, the calls up to and including it are recorded and the
   * sequence ends with its fault.
   */
  lemma {:induction false} InvokeAllFirstFault(ctx: Context, st: LoopState, calls: seq<DriverCall>, p: nat)
    requires |st.events| <= p < |st.events| + |calls| && p in ctx.faults && NoFault(ctx, |st.events|, p)
    ensures InvokeAll(ctx, st, calls) ==
      Exit(st.(events := st.events + Logged(calls)[..p - |st.events| + 1]), Raised(ctx.faults[p]))
    decreases |calls|
  {
    var k := |st.events|;
    var st1 := LoopState(st.owner, st.events + [Driver(calls[0])]);
    if p > k {
      assert k !in ctx.faults;
      InvokeAllStep(ctx, st, calls);
      assert NoFault(ctx, |st1.events|, p);
      InvokeAllFirstFault(ctx, st1, calls[1..], p);
      assert Logged(calls)[..p - k + 1] == [Driver(calls[0])] + Logged(calls[1..])[..p - (k + 1) + 1];
      assert st1.events + Logged(calls[1..])[..p - (k + 1) + 1] == st.events + Logged(calls)[..p - k + 1];
    } else {
      assert Logged(calls)[..1] == [Driver(calls[0])];
    }
  }

  /**
   * `{_, {command, D}}`: when D is an iolist its pieces go to the driver in
   * one output call and the loop goes on (or leaves with the driver's
   * fault); when it is not, nothing is output and the loop goes on.
   */
  lemma DispatchCommand(ctx: Context, st: LoopState, sender: Term, data: Term)
    ensures var r := Dispatch(ctx, st, Tuple([sender, Tuple([Atom("command"), data])]));
      match ctx.collect(data)
      case None => r == Continue(st)
      case Some(out) =>
        r.st == st.(events := st.events + [Driver(OutputCall(out))]) &&
        (r.Continue? <==> |st.events| !in ctx.faults)
  {
  }

  /**
   * The output call hands the driver exactly the collected pieces (the
   * shared empty buffer when there are none), as a vector call exactly when
   * there are two or more.
   */
  lemma OutputCallDelivers(out: seq<Buffer>)
    ensures Delivered(OutputCall(out)) == if out == [] then [EmptyBuffer] else out
    ensures OutputCall(out).Outputv? <==> |out| >= 2
    ensures OutputCall(out).Output? <==> |out| <= 1
  {
    if |out| == 1 {
      assert out == [out[0]];
    }
  }

  /**
   * A port-control message runs the closure it carries: when none of its
   * driver calls raises they are all recorded and the loop goes on;
   * otherwise the loop leaves with a fault and the owner unchanged. A
   * command closure makes one output call, a readiness closure the
   * readiness callbacks, and a released closure one stopSelect on its
   * channel.
   */
  lemma DispatchPortControl(ctx: Context, st: LoopState, a: Action)
    ensures var calls := ActionCalls(a); var r := Dispatch(ctx, st, PortControl(a));
      (NoFault(ctx, |st.events|, |st.events| + |calls|) ==>
         r == Continue(st.(events := st.events + Logged(calls)))) &&
      (!NoFault(ctx, |st.events|, |st.events| + |calls|) ==>
         r.Exit? && r.outcome.Raised? && r.st.owner == st.owner)
    ensures a.CommandAction? ==> ActionCalls(a) == [OutputCall(a.out)]
    ensures a.ReadyAction? ==> ActionCalls(a) == ReadyCalls(a.channel, a.readyOps)
    ensures a.ReleasedAction? ==> ActionCalls(a) == [StopSelect(a.channel)]
  {
    var calls := ActionCalls(a);
    if NoFault(ctx, |st.events|, |st.events| + |calls|) {
      InvokeAllRecords(ctx, st, calls);
    } else {
      InvokeAllFaultExits(ctx, st, calls);
    }
  }

  /**
   * `{_, {connect, P}}` with a pid: P becomes the owner and the previous
   * owner is told `{Port, connected}`; with anything else, badsig.
   */
  lemma DispatchConnect(ctx: Context, st: LoopState, sender: Term, p: Term)
    ensures var r := Dispatch(ctx, st, Tuple([sender, Tuple([Atom("connect"), p])]));
      (p.Pid? ==> r == Continue(LoopState(p.pid, st.events + [Sent(st.owner, Connected(ctx))]))) &&
      (!p.Pid? ==> r == Badsig(st, Tuple([sender, Tuple([Atom("connect"), p])])))
  {
  }

  /** `{_, close}` and `{'EXIT', From, Reason}` end the loop normally, with nothing done. */
  lemma DispatchClose(ctx: Context, st: LoopState, sender: Term, from: Term, reason: Term)
    ensures Dispatch(ctx, st, Tuple([sender, Atom("close")])) == Exit(st, Returned)
    ensures Dispatch(ctx, st, Tuple([Atom("EXIT"), from, reason])) == Exit(st, Returned)
  {
  }

  /** The rank of a readiness callback in the fixed order read, write, connect, accept. */
  function Rank(c: DriverCall): nat {
    match c
    case ReadyInput(_) => 0
    case ReadyOutput(_) => 1
    case ReadyConnect(_) => 2
    case ReadyAccept(_) => 3
    case _ => 4
  }

  /**
   * The readiness callbacks are exactly those whose flag is fully set in
   * `readyOps`, each on the given channel, in the order read, write,
   * connect, accept.
   */
  lemma ReadyCallsExact(ch: nat, ops: bv32)
    ensures var r := ReadyCalls(ch, ops);
      (ReadyInput(ch) in r <==> ops & ErlDrvRead == ErlDrvRead) &&
      (ReadyOutput(ch) in r <==> ops & ErlDrvWrite == ErlDrvWrite) &&
      (ReadyConnect(ch) in r <==> ops & ErlDrvConnect == ErlDrvConnect) &&
      (ReadyAccept(ch) in r <==> ops & ErlDrvAccept == ErlDrvAccept) &&
      (forall c <- r :: Rank(c) < 4 && c.channel == ch) &&
      (forall i, j :: 0 <= i < j < |r| ==> Rank(r[i]) < Rank(r[j]))
  {
    ReadyCallsFlags(ch, ops);
    ReadyCallsOrdered(ch, ops);
  }

  /** Each readiness callback is made exactly when its flag is fully set. */
  lemma ReadyCallsFlags(ch: nat, ops: bv32)
    ensures var r := ReadyCalls(ch, ops);
      (ReadyInput(ch) in r <==> ops & ErlDrvRead == ErlDrvRead) &&
      (ReadyOutput(ch) in r <==> ops & ErlDrvWrite == ErlDrvWrite) &&
      (ReadyConnect(ch) in r <==> ops & ErlDrvConnect == ErlDrvConnect) &&
      (ReadyAccept(ch) in r <==> ops & ErlDrvAccept == ErlDrvAccept)
  {
  }

  /** The readiness callbacks are on the given channel, in the order read, write, connect, accept. */
  lemma ReadyCallsOrdered(ch: nat, ops: bv32)
    ensures var r := ReadyCalls(ch, ops);
      (forall c <- r :: Rank(c) < 4 && c.channel == ch) &&
      (forall i, j :: 0 <= i < j < |r| ==> Rank(r[i]) < Rank(r[j]))
  {
    var tail := ReadyIf(ops, ErlDrvConnect, ReadyConnect(ch)) + ReadyIf(ops, ErlDrvAccept, ReadyAccept(ch));
    ReadyIfPrepends(ops, ErlDrvConnect, ReadyConnect(ch), ReadyIf(ops, ErlDrvAccept, ReadyAccept(ch)));
    ReadyIfPrepends(ops, ErlDrvWrite, ReadyOutput(ch), tail);
    ReadyIfPrepends(ops, ErlDrvRead, ReadyInput(ch), ReadyIf(ops, ErlDrvWrite, ReadyOutput(ch)) + tail);
  }

  /**
   * A callback put in front of callbacks of higher rank on its channel,
   * when its flag is set: the order by rank is kept.
   */
  lemma ReadyIfPrepends(ops: bv32, flag: bv32, c: DriverCall, rest: seq<DriverCall>)
    requires Rank(c) < 4 && |rest| <= 3 - Rank(c)
    requires forall i :: 0 <= i < |rest| ==> Rank(c) < Rank(rest[i]) < 4 && rest[i].channel == c.channel
    requires forall i, j :: 0 <= i < j < |rest| ==> Rank(rest[i]) < Rank(rest[j])
    ensures var r := ReadyIf(ops, flag, c) + rest;
      |r| <= 4 - Rank(c) &&
      (forall i :: 0 <= i < |r| ==> Rank(c) <= Rank(r[i]) < 4 && r[i].channel == c.channel) &&
      (forall i, j :: 0 <= i < j < |r| ==> Rank(r[i]) < Rank(r[j]))
  {
    if ops & flag == flag {
      var r := [c] + rest;
      forall i | 0 <= i < |r| ensures Rank(c) <= Rank(r[i]) < 4 && r[i].channel == c.channel {
        if i > 0 {
          assert r[i] == rest[i - 1];
        }
      }
      forall i, j | 0 <= i < j < |r| ensures Rank(r[i]) < Rank(r[j]) {
        assert r[j] == rest[j - 1];
        if i > 0 {
          assert r[i] == rest[i - 1];
        }
      }
    } else {
      assert ReadyIf(ops, flag, c) + rest == rest;
    }
  }

  /**
   * Messages after the one that ends the loop are never looked at; when the
   * loop waits at the end of `m1`, it picks up from there on `m2`.
   */
  lemma {:induction false} RunAppend(ctx: Context, st: LoopState, m1: seq<Term>, m2: seq<Term>)
    ensures var r1 := Run(ctx, st, m1);
      if r1.outcome.Suspended? then Run(ctx, st, m1 + m2) == Run(ctx, r1.st, m2)
      else Run(ctx, st, m1 + m2) == r1.(rest := r1.rest + m2)
    decreases |m1|
  {
    if m1 != [] {
      assert (m1 + m2)[0] == m1[0];
      assert (m1 + m2)[1..] == m1[1..] + m2;
      match Dispatch(ctx, st, m1[0])
      case Continue(st') => RunAppend(ctx, st', m1[1..], m2);
      case Exit(_, _) =>
    } else {
      assert m1 + m2 == m2;
    }
  }

  /** A command message whose data is an iolist with these pieces. */
  predicate IsCommandOf(ctx: Context, msg: Term, out: seq<Buffer>) {
    msg.Tuple? && |msg.elems| == 2 &&
    var body := msg.elems[1];
    body.Tuple? && |body.elems| == 2 && body.elems[0] == Atom("command") && ctx.collect(body.elems[1]) == Some(out)
  }

  /**
   * A mailbox of command messages, with a driver that raises nothing, is
   * drained into one output call per message, in mailbox order, and the
   * loop then waits.
   */
  lemma {:induction false} CommandsInOrder(ctx: Context, st: LoopState, mbox: seq<Term>, outs: seq<seq<Buffer>>)
    requires |outs| == |mbox| && forall i :: 0 <= i < |mbox| ==> IsCommandOf(ctx, mbox[i], outs[i])
    requires forall k :: |st.events| <= k < |st.events| + |mbox| ==> k !in ctx.faults
    ensures var r := Run(ctx, st, mbox);
      r.outcome == Suspended && r.st.owner == st.owner &&
      r.st.events == st.events + seq(|outs|, i requires 0 <= i < |outs| => Driver(OutputCall(outs[i])))
    decreases |mbox|
  {
    if mbox != [] {
      var msg := mbox[0];
      assert IsCommandOf(ctx, msg, outs[0]);
      var st' := st.(events := st.events + [Driver(OutputCall(outs[0]))]);
      assert Dispatch(ctx, st, msg) == Continue(st');
      CommandsInOrder(ctx, st', mbox[1..], outs[1..]);
      var logged := seq(|outs|, i requires 0 <= i < |outs| => Driver(OutputCall(outs[i])));
      var tail := seq(|outs| - 1, i requires 0 <= i < |outs| - 1 => Driver(OutputCall(outs[1..][i])));
      assert logged == [Driver(OutputCall(outs[0]))] + tail;
    }
  }
}
