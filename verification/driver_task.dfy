/**
 * The port driver task: the object that owns a port's options, its mailbox
 * and its driver instance, parses the port settings, runs the message loop
 * and accepts requests from other tasks (control, call, command, readiness
 * notifications and exit signals).
 *
 * Each method is proved against the specification functions of
 * `PortOptions` (option parsing) and `PortLoop` (the message loop).
 */
module DriverTasks {
  import opened Wrappers
  import opened Terms
  import opened PortOptions
  import opened PortLoop

  /** The life-cycle states the port task moves through. */
  datatype TaskState = Init | Running | Done

  /** The exceptions the request methods raise towards their callers. */
  datatype CallError = Badarg | NotImplemented | DriverFault(e: Exception)

  // ---------------------------------------------------------------------
  // Buffer flattening and reply mapping
  // ---------------------------------------------------------------------

  predicate AllValid(bufs: seq<Buffer>) {
    forall i :: 0 <= i < |bufs| ==> bufs[i].Valid()
  }

  /** The bytes written into each buffer, concatenated in order. */
  function Written(bufs: seq<Buffer>): seq<byte>
    requires AllValid(bufs)
    decreases |bufs|
  {
    if bufs == [] then [] else Written(bufs[..|bufs| - 1]) + bufs[|bufs| - 1].Written()
  }

  /** The sum of the buffers' positions. */
  function TotalPosition(bufs: seq<Buffer>): nat
    decreases |bufs|
  {
    if bufs == [] then 0 else TotalPosition(bufs[..|bufs| - 1]) + bufs[|bufs| - 1].position
  }

  lemma {:induction false} WrittenLength(bufs: seq<Buffer>)
    requires AllValid(bufs)
    ensures |Written(bufs)| == TotalPosition(bufs)
    decreases |bufs|
  {
    if bufs != [] {
      WrittenLength(bufs[..|bufs| - 1]);
    }
  }

  /** `ByteBuffer.flip`: the limit moves to the position and the position to 0. */
  function Flip(b: Buffer): (r: Buffer)
    requires b.Valid()
    ensures r.Valid() && r.bytes == b.bytes && r.position == 0 && r.limit == b.position
  {
    b.(limit := b.position, position := 0)
  }

  /**
   * `dst.put(src)`: the bytes between the position and the limit of `src`
   * are copied to `dst` at its position, and both positions advance past
   * them.
   */
  function Put(dst: Buffer, src: Buffer): (r: (Buffer, Buffer))
    requires dst.Valid() && src.Valid() && src.limit - src.position <= dst.limit - dst.position
    ensures var (d, s) := r;
      d.Valid() && |d.bytes| == |dst.bytes| && d.limit == dst.limit &&
      d.position == dst.position + (src.limit - src.position) &&
      d.Written() == dst.Written() + src.bytes[src.position..src.limit] &&
      s == src.(position := src.limit)
  {
    var n := src.limit - src.position;
    var d := dst.(bytes := dst.bytes[..dst.position] + src.bytes[src.position..src.limit] + dst.bytes[dst.position + n..],
                  position := dst.position + n);
    assert d.Written() == dst.bytes[..dst.position] + src.bytes[src.position..src.limit];
    (d, src.(position := src.limit))
  }

  /**
   * What `flatten` returns: the shared empty buffer for no buffers, the one
   * buffer itself, or a fresh buffer holding the written bytes of all of
   * them, positioned at its end.
   */
  function Flattened(bufs: seq<Buffer>): Buffer
    requires AllValid(bufs)
  {
    if |bufs| == 0 then EmptyBuffer
    else if |bufs| == 1 then bufs[0]
    else Buffer(Written(bufs), TotalPosition(bufs), TotalPosition(bufs))
  }

  /**
   * Two or more buffers flatten into a valid buffer whose written length is
   * the sum of their positions and whose written bytes are theirs, in order.
   */
  lemma FlattenedContents(bufs: seq<Buffer>)
    requires AllValid(bufs) && |bufs| >= 2
    ensures var f := Flattened(bufs);
      f.Valid() && f.position == f.limit == |f.bytes| == TotalPosition(bufs) && f.Written() == Written(bufs)
  {
    WrittenLength(bufs);
  }

  /**
   * `flatten`, in place: the result is `Flattened` of the inputs; when it
   * copies (two or more buffers) each input is left flipped and drained,
   * with its limit at its old position and nothing remaining.
   */
  method Flatten(out: array<Buffer>) returns (res: Buffer)
    requires AllValid(out[..])
    modifies out
    ensures res == Flattened(old(out[..]))
    ensures out.Length <= 1 ==> out[..] == old(out[..])
    ensures out.Length >= 2 ==>
      forall i :: 0 <= i < out.Length ==> out[i] == old(out[i]).(limit := old(out[i]).position)
  {
    if out.Length == 0 {
      return EmptyBuffer;
    } else if out.Length == 1 {
      return out[0];
    }
    ghost var bufs := out[..];
    var size := FlipAll(out);
    res := Buffer(seq(size, _ => 0), 0, size);
    res := PutAll(out, bufs, res);
    assert res.bytes == res.Written();
  }

  /** The first loop of `flatten`: every buffer is flipped and the result is the sum of their positions. */
  method FlipAll(out: array<Buffer>) returns (size: int)
    requires AllValid(out[..])
    modifies out
    ensures size == TotalPosition(old(out[..]))
    ensures forall j :: 0 <= j < out.Length ==> out[j] == Flip(old(out[j]))
  {
    ghost var bufs := out[..];
    size := 0;
    for i := 0 to out.Length
      invariant size == TotalPosition(bufs[..i])
      invariant forall j :: 0 <= j < i ==> out[j] == Flip(bufs[j])
      invariant forall j :: i <= j < out.Length ==> out[j] == bufs[j]
    {
      assert bufs[..i + 1][..i] == bufs[..i];
      size := size + out[i].position;
      out[i] := Flip(out[i]);
    }
    assert bufs[..out.Length] == bufs;
  }

  /**
   * The second loop of `flatten`: the flipped buffers are put, in order,
   * into a fresh buffer with room for all of them, which ends up full
   * with their written bytes; each one is drained.
   */
  method PutAll(out: array<Buffer>, ghost bufs: seq<Buffer>, dst: Buffer) returns (res: Buffer)
    requires AllValid(bufs) && |bufs| == out.Length
    requires forall j :: 0 <= j < out.Length ==> out[j] == Flip(bufs[j])
    requires dst.Valid() && dst.position == 0 && dst.limit == |dst.bytes| == TotalPosition(bufs)
    modifies out
    ensures res.Valid() && res.position == res.limit == |res.bytes| == TotalPosition(bufs)
    ensures res.Written() == Written(bufs)
    ensures forall j :: 0 <= j < out.Length ==> out[j] == bufs[j].(limit := bufs[j].position)
  {
    res := dst;
    for i := 0 to out.Length
      invariant res.Valid() && res.limit == |res.bytes| == TotalPosition(bufs)
      invariant res.position == TotalPosition(bufs[..i])
      invariant res.Written() == Written(bufs[..i])
      invariant forall j :: 0 <= j < i ==> out[j] == bufs[j].(limit := bufs[j].position)
      invariant forall j :: i <= j < out.Length ==> out[j] == Flip(bufs[j])
    {
      PrefixStep(bufs, i);
      var (d, s) := Put(res, out[i]);
      res := d;
      out[i] := s;
    }
    assert bufs[..out.Length] == bufs;
  }

  /** One more buffer of the prefix adds its written bytes and its position, within the total. */
  lemma PrefixStep(bufs: seq<Buffer>, i: nat)
    requires AllValid(bufs) && i < |bufs|
    ensures bufs[i].Valid()
    ensures Written(bufs[..i + 1]) == Written(bufs[..i]) + Flip(bufs[i]).bytes[0..bufs[i].position]
    ensures TotalPosition(bufs[..i + 1]) == TotalPosition(bufs[..i]) + bufs[i].position <= TotalPosition(bufs)
  {
    assert bufs[..i + 1][..i] == bufs[..i];
    TotalPositionMonotone(bufs, i + 1);
  }

  /** The positions of a prefix add up to at most those of the whole. */
  lemma {:induction false} TotalPositionMonotone(bufs: seq<Buffer>, n: nat)
    requires n <= |bufs|
    ensures TotalPosition(bufs[..n]) <= TotalPosition(bufs)
    decreases |bufs| - n
  {
    if n < |bufs| {
      TotalPositionMonotone(bufs, n + 1);
      assert bufs[..n + 1][..n] == bufs[..n];
    } else {
      assert bufs[..n] == bufs;
    }
  }

  /** The characters of an Erlang string made from these bytes. */
  function BytesText(bs: seq<byte>): (t: string)
    ensures |t| == |bs|
  {
    seq(|bs|, i requires 0 <= i < |bs| => (bs[i] as int) as char)
  }

  /** The bytes a reply term carries: a binary's bytes, or a string's characters. */
  function ReplyBytes(t: Term): seq<byte>
    requires t.Str? ==> forall i :: 0 <= i < |t.text| ==> (t.text[i] as int) < 256
  {
    match t
    case Binary(bs) => bs
    case Str(text) => seq(|text|, i requires 0 <= i < |text| => (text[i] as int) as byte)
    case _ => []
  }

  /**
   * The term a driver's control reply becomes: a missing reply or one at
   * position 0 is the empty binary or `[]`; otherwise the bytes before the
   * position come back as a binary or as a string.
   */
  function MapReply(sendBinaryData: bool, reply: Option<Buffer>): (r: Term)
    requires reply.Some? ==> reply.value.Valid()
    ensures sendBinaryData ==> r.Binary?
    ensures !sendBinaryData ==> r.Nil? || (r.Str? && |r.text| > 0)
  {
    if reply.None? || reply.value.position == 0 then
      if sendBinaryData then Binary([]) else Nil
    else
      var written := reply.value.Written();
      if sendBinaryData then Binary(written) else Str(BytesText(written))
  }

  /**
   * The caller gets back exactly the bytes the driver wrote into its reply
   * (none for a missing reply), as a binary exactly when the port sends
   * binaries.
   */
  lemma MapReplyBytes(sendBinaryData: bool, reply: Option<Buffer>)
    requires reply.Some? ==> reply.value.Valid()
    ensures var r := MapReply(sendBinaryData, reply);
      (r.Str? ==> forall i :: 0 <= i < |r.text| ==> (r.text[i] as int) < 256) &&
      ReplyBytes(r) == (if reply.None? then [] else reply.value.Written()) &&
      (r.Binary? <==> sendBinaryData)
  {
    if reply.Some? && reply.value.position > 0 && !sendBinaryData {
      var w := reply.value.Written();
      var t := BytesText(w);
      assert forall i :: 0 <= i < |w| ==> ((t[i] as int) as byte) == w[i];
    }
  }

  // ---------------------------------------------------------------------
  // The task
  // ---------------------------------------------------------------------

  class DriverTask {
    /** The port, the term layer and the driver, which the task never changes. */
    const ctx: Context

    var owner: nat
    var pstate: TaskState
    /** The mailbox, oldest message first. */
    var mbox: seq<Term>
    /** What the task has asked of its driver and of other processes, in order. */
    var events: seq<Event>

    var sendBinaryData: bool
    var isOutOnly: bool
    var isInOnly: bool
    var sendEof: bool
    /** The `hide` option (a Dafny keyword, hence the longer name). */
    var hideWindow: bool
    var portOutFd: int
    var portInFd: int
    var sendExitStatus: bool
    var packet: int
    var lineLength: int
    var mode: Mode
    var cmd: seq<string>
    var cwd: string
    var env: map<string, string>

    /** The option fields as one value. */
    function Opts(): Options
      reads this
    {
      Options(cmd, cwd, env, mode, packet, lineLength, portInFd, portOutFd,
              hideWindow, sendExitStatus, sendEof, isInOnly, isOutOnly, sendBinaryData)
    }

    /** The fields the message loop updates. */
    function Loop(): LoopState
      reads this
    {
      LoopState(owner, events)
    }

    /** A new task for a process; its mode starts as STREAM. */
    constructor(ctx: Context, owner: nat)
      ensures this.ctx == ctx && this.owner == owner && pstate == Init && mbox == [] && events == []
      ensures Opts() == Options([], "", map[], Stream, 0, 0, 0, 0, false, false, false, false, false, false)
    {
      this.ctx := ctx;
      this.owner := owner;
      pstate := Init;
      mbox := [];
      events := [];
      sendBinaryData, isOutOnly, isInOnly, sendEof, hideWindow := false, false, false, false, false;
      portOutFd, portInFd := 0, 0;
      sendExitStatus := false;
      packet, lineLength := 0, 0;
      mode := Stream;
      cmd, cwd, env := [], "", map[];
    }

    // -------------------------------------------------------------------
    // parseOptions
    // -------------------------------------------------------------------

    /** A bare atom setting. */
    method ApplyAtom(name: string)
      modifies this`mode, this`portInFd, this`portOutFd, this`hideWindow, this`sendExitStatus,
               this`sendEof, this`isInOnly, this`isOutOnly, this`sendBinaryData
      ensures Opts() == ApplyFlag(old(Opts()), name)
    {
      if name == "stream" {
        mode := Stream;
      } else if name == "use_stdio" {
        portInFd := 1;
        portOutFd := 2;
      } else if name == "nouse_stdio" {
        portInFd := 3;
        portOutFd := 4;
      } else if name == "hide" {
        hideWindow := true;
      } else if name == "exit_status" {
        sendExitStatus := true;
      } else if name == "eof" {
        sendEof := true;
      } else if name == "in" {
        isInOnly := true;
      } else if name == "out" {
        isOutOnly := true;
      } else if name == "binary" {
        sendBinaryData := true;
      }
    }

    /** The entries of an `env` setting, applied to the environment in order. */
    method ApplyEnvEntries(envs: seq<Term>)
      requires forall e <- envs :: EnvEntryCoercible(e)
      modifies this`env
      ensures env == ApplyEnv(old(env), envs)
    {
      for i := 0 to |envs|
        invariant env == ApplyEnv(old(env), envs[..i])
      {
        assert envs[..i + 1][..i] == envs[..i];
        var e := envs[i];
        assert e in envs;
        if e.elems[1] == Atom("false") {
          env := env - {e.elems[0].text};
        } else {
          env := env[e.elems[0].text := e.elems[1].text];
        }
      }
      assert envs[..|envs|] == envs;
    }

    /** `{args, L}`: a new argv of the command followed by the strings of L. */
    method ApplyArgs(v: Term)
      requires |cmd| > 0 && TextList(v)
      modifies this`cmd
      ensures cmd == [old(cmd)[0]] + Texts(Heads(v))
    {
      var nargs := Heads(v);
      var newCmd := new string[|nargs| + 1];
      newCmd[0] := cmd[0];
      for i := 0 to |nargs|
        invariant cmd == old(cmd)
        invariant newCmd[0] == cmd[0]
        invariant forall j :: 0 <= j < i ==> newCmd[j + 1] == nargs[j].text
      {
        newCmd[i + 1] := nargs[i].text;
      }
      assert newCmd[..] == [cmd[0]] + Texts(nargs);
      cmd := newCmd[..];
    }

    /** A 2-tuple setting `{k, v}`. */
    method ApplyTuple(k: Term, v: Term) returns (badarg: bool)
      requires |cmd| > 0 && SettingCoercible(Tuple([k, v]))
      modifies this`cmd, this`cwd, this`env, this`mode, this`packet, this`lineLength
      ensures var p := ApplyPair(old(Opts()), k, v); Opts() == p.opts && badarg == p.badarg
    {
      badarg := false;
      if k == Atom("args") {
        ApplyArgs(v);
      } else if k == Atom("arg0") {
        var newCmd := new string[2];
        newCmd[0] := cmd[0];
        newCmd[1] := v.text;
      } else if k == Atom("packet") {
        packet := v.value;
        mode := Packet;
      } else if k == Atom("cd") {
        cwd := v.text;
      } else if k == Atom("env") {
        if !ProperList(v) {
          return true;
        }
        ApplyEnvEntries(Heads(v));
      } else if k == Atom("line") {
        lineLength := v.value;
        mode := Line;
      } else {
        return true;
      }
    }

    /** One element of the settings list. */
    method ApplyOne(val: Term) returns (badarg: bool)
      requires |cmd| > 0 && SettingCoercible(val)
      modifies this`cmd, this`cwd, this`env, this`mode, this`packet, this`lineLength,
               this`portInFd, this`portOutFd, this`hideWindow, this`sendExitStatus,
               this`sendEof, this`isInOnly, this`isOutOnly, this`sendBinaryData
      ensures var p := ApplySetting(old(Opts()), val); Opts() == p.opts && badarg == p.badarg
    {
      badarg := false;
      if val.Tuple? {
        if |val.elems| == 2 {
          assert val.elems == [val.elems[0], val.elems[1]];
          badarg := ApplyTuple(val.elems[0], val.elems[1]);
        }
      } else if val.Atom? {
        ApplyAtom(val.name);
      }
    }

    /** The values `parseOptions` assigns before it reads the settings. */
    method Reset(command: string, userDir: string, hostEnv: map<string, string>)
      modifies this`cmd, this`cwd, this`env, this`packet, this`lineLength,
               this`portInFd, this`portOutFd, this`hideWindow, this`sendExitStatus,
               this`sendEof, this`isInOnly, this`isOutOnly, this`sendBinaryData
      ensures Opts() == Defaults(command, userDir, hostEnv, mode)
    {
      cmd, cwd, env := [command], userDir, hostEnv;
      packet, lineLength := -1, -1;
      ResetFlags();
    }

    /** The descriptors and flags part of the reset: stdio on 1 and 2, every flag false. */
    method ResetFlags()
      modifies this`portInFd, this`portOutFd, this`hideWindow, this`sendExitStatus,
               this`sendEof, this`isInOnly, this`isOutOnly, this`sendBinaryData
      ensures portInFd == 1 && portOutFd == 2
      ensures !hideWindow && !sendExitStatus && !sendEof && !isInOnly && !isOutOnly && !sendBinaryData
    {
      sendExitStatus := false;
      portInFd, portOutFd := 1, 2;
      hideWindow, sendEof, isInOnly, isOutOnly, sendBinaryData := false, false, false, false, false;
    }

    /**
     * `parseOptions(command, settings)`: the options are reset and then set
     * by one pass over the settings list, which stops at the first badarg
     * (leaving the options as they stood). The mode is not reset.
     */
    method ParseOptions(command: string, userDir: string, hostEnv: map<string, string>, settings: Term)
      returns (badarg: bool)
      requires SettingsCoercible(settings)
      modifies this`cmd, this`cwd, this`env, this`mode, this`packet, this`lineLength,
               this`portInFd, this`portOutFd, this`hideWindow, this`sendExitStatus,
               this`sendEof, this`isInOnly, this`isOutOnly, this`sendBinaryData
      ensures var p := Parse(command, userDir, hostEnv, old(mode), settings);
        Opts() == p.opts && badarg == p.badarg
    {
      Reset(command, userDir, hostEnv);
      ghost var d := Opts();
      if !(settings.Cons? || settings.Nil?) {
        return true;
      }
      var list := settings;
      while list.Cons?
        invariant |cmd| > 0 && Coercible(list)
        invariant Scan(Opts(), list) == Scan(d, settings)
        decreases list
      {
        badarg := ApplyOne(list.head);
        if badarg {
          return;
        }
        list := list.tail;
      }
      assert Scan(Opts(), list) == Parsed(Opts(), false);
      badarg := false;
    }

    // -------------------------------------------------------------------
    // The driver and the message loop
    // -------------------------------------------------------------------

    /** One call on the driver instance: recorded, then it returns or raises its fault. */
    method Invoke(c: DriverCall) returns (fault: Option<Exception>)
      modifies this`events
      ensures var r := PortLoop.Invoke(ctx, old(Loop()), c);
        events == r.st.events && (fault.None? <==> r.Continue?) && (fault.Some? ==> r.outcome == Raised(fault.value))
    {
      fault := if |events| in ctx.faults then Some(ctx.faults[|events|]) else None;
      events := events + [Driver(c)];
    }

    /** Output of the pieces of a command: the empty buffer, the single piece, or all of them. */
    method OutputPieces(out: seq<Buffer>) returns (fault: Option<Exception>)
      modifies this`events
      ensures var r := PortLoop.Invoke(ctx, old(Loop()), OutputCall(out));
        events == r.st.events && (fault.None? <==> r.Continue?) && (fault.Some? ==> r.outcome == Raised(fault.value))
    {
      if |out| == 0 {
        fault := Invoke(Output(EmptyBuffer));
      } else if |out| == 1 {
        fault := Invoke(Output(out[0]));
      } else {
        fault := Invoke(Outputv(out));
      }
    }

    /** One readiness callback, made when its flag is fully set in `ops`. */
    method ReadyCallback(ops: bv32, flag: bv32, c: DriverCall) returns (fault: Option<Exception>)
      modifies this`events
      ensures var r := InvokeAll(ctx, old(Loop()), ReadyIf(ops, flag, c));
        events == r.st.events && (fault.None? <==> r.Continue?) && (fault.Some? ==> r.outcome == Raised(fault.value))
    {
      fault := None;
      if ops & flag == flag {
        fault := Invoke(c);
      }
    }

    /** The closure posted by `ready`: the callbacks in the order read, write, connect, accept. */
    method RunReady(ch: nat, ops: bv32) returns (fault: Option<Exception>)
      modifies this`events
      ensures var r := InvokeAll(ctx, old(Loop()), ReadyCalls(ch, ops));
        events == r.st.events && (fault.None? <==> r.Continue?) && (fault.Some? ==> r.outcome == Raised(fault.value))
    {
      var accept := ReadyIf(ops, ErlDrvAccept, ReadyAccept(ch));
      var connect := ReadyIf(ops, ErlDrvConnect, ReadyConnect(ch)) + accept;
      var write := ReadyIf(ops, ErlDrvWrite, ReadyOutput(ch)) + connect;
      InvokeAllAppend(ctx, Loop(), ReadyIf(ops, ErlDrvRead, ReadyInput(ch)), write);
      fault := ReadyCallback(ops, ErlDrvRead, ReadyInput(ch));
      if fault.Some? {
        return;
      }
      InvokeAllAppend(ctx, Loop(), ReadyIf(ops, ErlDrvWrite, ReadyOutput(ch)), connect);
      fault := ReadyCallback(ops, ErlDrvWrite, ReadyOutput(ch));
      if fault.Some? {
        return;
      }
      InvokeAllAppend(ctx, Loop(), ReadyIf(ops, ErlDrvConnect, ReadyConnect(ch)), accept);
      fault := ReadyCallback(ops, ErlDrvConnect, ReadyConnect(ch));
      if fault.Some? {
        return;
      }
      fault := ReadyCallback(ops, ErlDrvAccept, ReadyAccept(ch));
    }

    /** Running a closure the task posted to its own mailbox. */
    method RunAction(a: Action) returns (fault: Option<Exception>)
      modifies this`events
      ensures var r := InvokeAll(ctx, old(Loop()), ActionCalls(a));
        events == r.st.events && (fault.None? <==> r.Continue?) && (fault.Some? ==> r.outcome == Raised(fault.value))
    {
      match a
      case CommandAction(out) =>
        fault := OutputPieces(out);
      case ReadyAction(ch, ops) =>
        fault := RunReady(ch, ops);
      case ReleasedAction(ch) =>
        fault := Invoke(StopSelect(ch));
    }

    /** One turn of the loop: what message `msg` does, and whether the loop goes on. */
    method Handle(msg: Term) returns (exit: bool, outcome: Outcome)
      modifies this`owner, this`events
      ensures var r := Dispatch(ctx, old(Loop()), msg);
        Loop() == r.st && exit == r.Exit? && (exit ==> outcome == r.outcome)
    {
      exit, outcome := false, Returned;
      if msg.Tuple? && |msg.elems| == 2 {
        var body := msg.elems[1];
        if body.Tuple? && |body.elems| == 2 {
          if body.elems[0] == Atom("command") {
            var out := ctx.collect(body.elems[1]);
            if out.Some? {
              var fault := OutputPieces(out.value);
              if fault.Some? {
                return true, Raised(fault.value);
              }
            }
            return;
          } else if body.elems[0] == Atom("connect") {
            var newOwner := body.elems[1];
            if newOwner.Pid? {
              var oldOwner := owner;
              owner := newOwner.pid;
              events := events + [Sent(oldOwner, Connected(ctx))];
              return;
            }
          }
        } else if body == Atom("close") {
          return true, Returned;
        }
      } else if msg.PortControl? {
        var fault := RunAction(msg.action);
        if fault.Some? {
          return true, Raised(fault.value);
        }
        return;
      } else if msg.Tuple? && |msg.elems| == 3 && msg.elems[0] == Atom("EXIT") {
        return true, Returned;
      }
      return true, Raised(BadsigError(msg));
    }

    /**
     * `main_loop`: messages are taken from the mailbox one at a time until
     * one ends the loop; with the mailbox empty the loop waits.
     */
    method MainLoop() returns (outcome: Outcome)
      modifies this`owner, this`events, this`mbox
      ensures var r := Run(ctx, old(Loop()), old(mbox));
        Loop() == r.st && outcome == r.outcome && mbox == r.rest
    {
      while mbox != []
        invariant Run(ctx, Loop(), mbox) == Run(ctx, old(Loop()), old(mbox))
        decreases |mbox|
      {
        var msg := mbox[0];
        mbox := mbox[1..];
        var exit;
        exit, outcome := Handle(msg);
        if exit {
          return;
        }
      }
      outcome := Suspended;
    }

    /**
     * `execute`: the task is RUNNING while the loop runs and DONE once it
     * has left it; the exit reason is then sent to every linked handle,
     * after which the driver is stopped.
     */
    method Execute() returns (outcome: Outcome)
      modifies this`pstate, this`owner, this`events, this`mbox
      ensures var r := Run(ctx, old(Loop()), old(mbox));
        outcome == r.outcome && owner == r.st.owner && mbox == r.rest &&
        (outcome.Suspended? ==> pstate == Running && events == r.st.events) &&
        (!outcome.Suspended? ==>
           pstate == Done && events == r.st.events + [ExitToLinked(ExitReason(outcome)), Driver(Stop)])
    {
      ghost var r := Run(ctx, Loop(), mbox);
      pstate := Running;
      outcome := MainLoop();
      assert Loop() == r.st && outcome == r.outcome && mbox == r.rest;
      if outcome.Suspended? {
        return;
      }
      pstate := Done;
      var reason := ExitReason(outcome);
      events := events + [ExitToLinked(reason)];
      events := events + [Driver(Stop)];
    }

    // -------------------------------------------------------------------
    // Requests from other tasks
    // -------------------------------------------------------------------

    /**
     * `control(op, out)`: badarg unless RUNNING; otherwise the flattened
     * buffers go to the driver, whose `reply` is mapped to a term. Flattening
     * two or more buffers leaves each of them drained, as `Flatten` says.
     */
    method Control(op: int, out: array<Buffer>, reply: Option<Buffer>) returns (r: Result<Term, CallError>)
      requires AllValid(out[..])
      requires reply.Some? ==> reply.value.Valid()
      modifies out, this`events
      ensures old(pstate) != Running ==> r == Err(Badarg) && events == old(events) && out[..] == old(out[..])
      ensures old(pstate) == Running ==>
        events == old(events) + [Driver(DrvControl(op, Flattened(old(out[..]))))] &&
        if |old(events)| in ctx.faults then r == Err(DriverFault(ctx.faults[|old(events)|]))
        else r == Ok(MapReply(sendBinaryData, reply))
      ensures old(pstate) == Running && out.Length <= 1 ==> out[..] == old(out[..])
      ensures old(pstate) == Running && out.Length >= 2 ==>
        forall i :: 0 <= i < out.Length ==> out[i] == old(out[i]).(limit := old(out[i]).position)
    {
      if pstate != Running {
        return Err(Badarg);
      }
      var odata := Flatten(out);
      var fault := Invoke(DrvControl(op, odata));
      if fault.Some? {
        return Err(DriverFault(fault.value));
      }
      return Ok(MapReply(sendBinaryData, reply));
    }

    /** `call(op, data)`: badarg unless RUNNING; otherwise the driver's `answer`. */
    method Call(op: int, data: Term, answer: Term) returns (r: Result<Term, CallError>)
      modifies this`events
      ensures old(pstate) != Running ==> r == Err(Badarg) && events == old(events)
      ensures old(pstate) == Running ==>
        events == old(events) + [Driver(DrvCall(op, data))] &&
        r == if |old(events)| in ctx.faults then Err(DriverFault(ctx.faults[|old(events)|])) else Ok(answer)
    {
      if pstate != Running {
        return Err(Badarg);
      }
      var fault := Invoke(DrvCall(op, data));
      if fault.Some? {
        return Err(DriverFault(fault.value));
      }
      return Ok(answer);
    }

    /**
     * `command(out)`: NotImplemented unless the mode is STREAM; otherwise a
     * closure that outputs the buffers is posted to the mailbox.
     */
    method Command(out: array<Buffer>) returns (r: Result<(), CallError>)
      modifies this`mbox
      ensures mode != Stream ==> r == Err(NotImplemented) && mbox == old(mbox)
      ensures mode == Stream ==> r == Ok(()) && mbox == old(mbox) + [PortControl(CommandAction(out[..]))]
    {
      if mode != Stream {
        return Err(NotImplemented);
      }
      mbox := mbox + [PortControl(CommandAction(out[..]))];
      return Ok(());
    }

    /** `ready(ch, ops)`: a closure making the readiness callbacks is posted. */
    method Ready(channel: nat, readyOps: bv32)
      modifies this`mbox
      ensures mbox == old(mbox) + [PortControl(ReadyAction(channel, readyOps))]
    {
      mbox := mbox + [PortControl(ReadyAction(channel, readyOps))];
    }

    /** `released(ch)`: a closure that stops selecting on the channel is posted. */
    method Released(channel: nat)
      modifies this`mbox
      ensures mbox == old(mbox) + [PortControl(ReleasedAction(channel))]
    {
      mbox := mbox + [PortControl(ReleasedAction(channel))];
    }

    /** `process_incoming_exit(from, reason)`: `{'EXIT', From, Reason}` is posted. */
    method ProcessIncomingExit(from: Term, reason: Term)
      modifies this`mbox
      ensures mbox == old(mbox) + [Tuple([Atom("EXIT"), from, reason])]
    {
      mbox := mbox + [Tuple([Atom("EXIT"), from, reason])];
    }
  }
}
