/**
 * Option parsing of the port driver task: one left-to-right pass over the
 * settings list fills the port's options (argv, working directory,
 * environment, I/O mode, stdio descriptors and boolean flags).
 *
 * `Scan` is the specification of the parsing loop; the imperative loop
 * itself is `DriverTasks.DriverTask.ParseOptions`.
 */
module PortOptions {
  import opened Wrappers
  import opened Terms

  datatype Mode = Stream | Packet | Line

  /** The fields `parseOptions` assigns, plus the mode it may change. */
  datatype Options = Options(
    cmd: seq<string>,
    cwd: string,
    env: map<string, string>,
    mode: Mode,
    packet: int,
    lineLength: int,
    portInFd: int,
    portOutFd: int,
    hide: bool,
    sendExitStatus: bool,
    sendEof: bool,
    isInOnly: bool,
    isOutOnly: bool,
    sendBinaryData: bool)

  /** Where a scan stopped: the options as they stand, and whether badarg was raised. */
  datatype Parsed = Parsed(opts: Options, badarg: bool)

  /**
   * The values `parseOptions` assigns before it looks at the settings. The
   * mode is not among them: it keeps the value it had (STREAM for a new task).
   */
  function Defaults(command: string, userDir: string, hostEnv: map<string, string>, mode: Mode): Options {
    Options([command], userDir, hostEnv, mode, -1, -1, 1, 2, false, false, false, false, false, false)
  }

  /** The keys a 2-tuple setting may carry. */
  const Keys: set<Term> := {Atom("args"), Atom("arg0"), Atom("packet"), Atom("cd"), Atom("env"), Atom("line")}

  /** The bare atoms a setting may be. */
  const FlagNames: set<string> :=
    {"stream", "use_stdio", "nouse_stdio", "hide", "exit_status", "eof", "in", "out", "binary"}

  /** A setting that makes the scan raise badarg: an unknown key, or an `env` value that is not a list. */
  predicate RaisesBadarg(s: Term) {
    s.Tuple? && |s.elems| == 2 &&
    (s.elems[0] !in Keys || (s.elems[0] == Atom("env") && !ProperList(s.elems[1])))
  }

  /** A setting the scan skips without effect. */
  predicate Ignored(s: Term) {
    match s
    case Tuple(es) => |es| != 2
    case Atom(name) => name !in FlagNames
    case _ => true
  }

  predicate TextList(t: Term) {
    ProperList(t) && forall e <- Heads(t) :: e.Str?
  }

  predicate EnvEntryCoercible(e: Term) {
    e.Tuple? && |e.elems| == 2 && e.elems[0].Str? && (e.elems[1] == Atom("false") || e.elems[1].Str?)
  }

  /**
   * The term-layer conversions a recognised setting relies on succeed: text
   * where a string is read, an integer that fits a Java `int` for `packet`
   * and `line`, a list of `{Name, Value}` pairs for `env`, and a proper list
   * for `args`.
   */
  /** An integer term whose `asInt` is exact: it lies in the 32-bit range. */
  predicate IntValue(v: Term) {
    v.Int? && -0x8000_0000 <= v.value < 0x8000_0000
  }

  predicate SettingCoercible(s: Term) {
    s.Tuple? && |s.elems| == 2 ==>
      var k, v := s.elems[0], s.elems[1];
      (k == Atom("args") ==> TextList(v)) &&
      (k == Atom("arg0") || k == Atom("cd") ==> v.Str?) &&
      (k == Atom("packet") || k == Atom("line") ==> IntValue(v)) &&
      (k == Atom("env") ==> !v.Str? && (ProperList(v) ==> forall e <- Heads(v) :: EnvEntryCoercible(e)))
  }

  /** Every setting the scan reaches is coercible. */
  predicate Coercible(list: Term) {
    match list
    case Cons(h, t) => SettingCoercible(h) && (RaisesBadarg(h) || Coercible(t))
    case _ => true
  }

  predicate SettingsCoercible(settings: Term) {
    !settings.Str? && Coercible(settings)
  }

  function Texts(ts: seq<Term>): (r: seq<string>)
    requires forall e <- ts :: e.Str?
    ensures |r| == |ts|
    ensures forall i :: 0 <= i < |ts| ==> r[i] == ts[i].text
  {
    seq(|ts|, i requires 0 <= i < |ts| => ts[i].text)
  }

  /** One `{Name, Value}` entry of an `env` setting: `false` removes the name. */
  function PutEnv(env: map<string, string>, e: Term): map<string, string>
    requires EnvEntryCoercible(e)
  {
    if e.elems[1] == Atom("false") then env - {e.elems[0].text}
    else env[e.elems[0].text := e.elems[1].text]
  }

  /** The entries of an `env` setting, applied in order. */
  function ApplyEnv(env: map<string, string>, es: seq<Term>): map<string, string>
    requires forall e <- es :: EnvEntryCoercible(e)
    decreases |es|
  {
    if es == [] then env else PutEnv(ApplyEnv(env, es[..|es| - 1]), es[|es| - 1])
  }

  function ApplyFlag(o: Options, name: string): (r: Options)
    ensures name !in FlagNames ==> r == o
    ensures r.cmd == o.cmd
  {
    if name == "stream" then o.(mode := Stream)
    else if name == "use_stdio" then o.(portInFd := 1, portOutFd := 2)
    else if name == "nouse_stdio" then o.(portInFd := 3, portOutFd := 4)
    else if name == "hide" then o.(hide := true)
    else if name == "exit_status" then o.(sendExitStatus := true)
    else if name == "eof" then o.(sendEof := true)
    else if name == "in" then o.(isInOnly := true)
    else if name == "out" then o.(isOutOnly := true)
    else if name == "binary" then o.(sendBinaryData := true)
    else o
  }

  function ApplyPair(o: Options, k: Term, v: Term): (p: Parsed)
    requires |o.cmd| > 0 && SettingCoercible(Tuple([k, v]))
    ensures p.badarg <==> k !in Keys || (k == Atom("env") && !ProperList(v))
    ensures p.badarg ==> p.opts == o
    ensures |p.opts.cmd| > 0
  {
    if k == Atom("args") then Parsed(o.(cmd := [o.cmd[0]] + Texts(Heads(v))), false)
    else if k == Atom("arg0") then Parsed(o, false)  // the new argv is built but never stored
    else if k == Atom("packet") then Parsed(o.(packet := v.value, mode := Packet), false)
    else if k == Atom("cd") then Parsed(o.(cwd := v.text), false)
    else if k == Atom("env") then
      if ProperList(v) then Parsed(o.(env := ApplyEnv(o.env, Heads(v))), false) else Parsed(o, true)
    else if k == Atom("line") then Parsed(o.(lineLength := v.value, mode := Line), false)
    else Parsed(o, true)
  }

  /** One element of the settings list. */
  function ApplySetting(o: Options, s: Term): (p: Parsed)
    requires |o.cmd| > 0 && SettingCoercible(s)
    ensures p.badarg <==> RaisesBadarg(s)
    ensures p.badarg ==> p.opts == o
    ensures Ignored(s) ==> p == Parsed(o, false)
    ensures |p.opts.cmd| > 0
  {
    match s
    case Tuple(es) =>
      if |es| == 2 then
        assert es == [es[0], es[1]];
        ApplyPair(o, es[0], es[1])
      else Parsed(o, false)
    case Atom(name) => Parsed(ApplyFlag(o, name), false)
    case _ => Parsed(o, false)
  }

  /** The scan over the cons cells of the settings list; it stops at the first badarg. */
  function Scan(o: Options, list: Term): (p: Parsed)
    requires |o.cmd| > 0 && Coercible(list)
    ensures |p.opts.cmd| > 0
    decreases list
  {
    match list
    case Cons(h, t) =>
      var q := ApplySetting(o, h);
      if q.badarg then q else Scan(q.opts, t)
    case _ => Parsed(o, false)
  }

  /** `parseOptions(command, settings)` on a task whose mode was `mode`. */
  function Parse(command: string, userDir: string, hostEnv: map<string, string>, mode: Mode, settings: Term): Parsed
    requires SettingsCoercible(settings)
  {
    var d := Defaults(command, userDir, hostEnv, mode);
    if settings.Cons? || settings.Nil? then Scan(d, settings) else Parsed(d, true)
  }

  // ---------------------------------------------------------------------
  // Properties of the scan
  // ---------------------------------------------------------------------

  /** The scan raises badarg exactly when some setting it reaches does. */
  lemma {:induction false} ScanBadargIff(o: Options, list: Term)
    requires |o.cmd| > 0 && Coercible(list)
    ensures Scan(o, list).badarg <==> exists s <- Heads(list) :: RaisesBadarg(s)
    decreases list
  {
    match list
    case Cons(h, t) =>
      assert Heads(list) == [h] + Heads(t);
      var q := ApplySetting(o, h);
      if !q.badarg {
        ScanBadargIff(q.opts, t);
      }
    case _ =>
  }

  /**
   * Parsing fails with badarg exactly when the settings are not a list, or
   * some setting reached has an unknown key or a non-list `env` value.
   */
  lemma ParseBadargIff(command: string, userDir: string, hostEnv: map<string, string>, mode: Mode, settings: Term)
    requires SettingsCoercible(settings)
    ensures Parse(command, userDir, hostEnv, mode, settings).badarg <==>
      !(settings.Cons? || settings.Nil?) || exists s <- Heads(settings) :: RaisesBadarg(s)
  {
    if settings.Cons? || settings.Nil? {
      ScanBadargIff(Defaults(command, userDir, hostEnv, mode), settings);
    }
  }

  /** Settings of other arities and unknown atoms leave the options as they were. */
  lemma {:induction false} ScanSkipsIgnored(o: Options, list: Term)
    requires |o.cmd| > 0 && Coercible(list)
    requires forall s <- Heads(list) :: Ignored(s)
    ensures Scan(o, list) == Parsed(o, false)
    decreases list
  {
    match list
    case Cons(h, t) =>
      assert Heads(list) == [h] + Heads(t);
      assert h in Heads(list);
      ScanSkipsIgnored(o, t);
    case _ =>
  }

  /**
   * With nothing recognised in the settings, argv is `[command]`, `packet`
   * and `line_length` are -1, stdio uses descriptors 1 and 2, and every flag
   * is false.
   */
  lemma ParseDefaults(command: string, userDir: string, hostEnv: map<string, string>, settings: Term)
    requires SettingsCoercible(settings) && (settings.Cons? || settings.Nil?)
    requires forall s <- Heads(settings) :: Ignored(s)
    ensures var p := Parse(command, userDir, hostEnv, Stream, settings);
      !p.badarg && p.opts.cmd == [command] && p.opts.cwd == userDir && p.opts.env == hostEnv &&
      p.opts.mode == Stream && p.opts.packet == -1 && p.opts.lineLength == -1 &&
      p.opts.portInFd == 1 && p.opts.portOutFd == 2 &&
      !p.opts.hide && !p.opts.sendExitStatus && !p.opts.sendEof &&
      !p.opts.isInOnly && !p.opts.isOutOnly && !p.opts.sendBinaryData
  {
    ScanSkipsIgnored(Defaults(command, userDir, hostEnv, Stream), settings);
  }

  /** `{args, L}` rebuilds argv from its first element and L; `{arg0, _}` changes nothing. */
  lemma ArgsSettingEffects(o: Options, v: Term)
    requires |o.cmd| > 0
    ensures TextList(v) ==>
      var p := ApplySetting(o, Tuple([Atom("args"), v]));
      !p.badarg && p.opts.cmd == [o.cmd[0]] + Texts(Heads(v)) && |p.opts.cmd| == |Heads(v)| + 1
    ensures v.Str? ==> ApplySetting(o, Tuple([Atom("arg0"), v])) == Parsed(o, false)
  {
  }

  /** `{cd, Dir}`, `{packet, N}` and `{line, L}` set exactly their fields (and the mode). */
  lemma ValueSettingEffects(o: Options, v: Term)
    requires |o.cmd| > 0
    ensures v.Str? ==> ApplySetting(o, Tuple([Atom("cd"), v])) == Parsed(o.(cwd := v.text), false)
    ensures IntValue(v) ==> ApplySetting(o, Tuple([Atom("packet"), v])) == Parsed(o.(packet := v.value, mode := Packet), false)
    ensures IntValue(v) ==> ApplySetting(o, Tuple([Atom("line"), v])) == Parsed(o.(lineLength := v.value, mode := Line), false)
  {
  }

  /** `use_stdio` selects descriptors 1 and 2, `nouse_stdio` 3 and 4. */
  lemma StdioSettingEffects(o: Options)
    requires |o.cmd| > 0
    ensures ApplySetting(o, Atom("use_stdio")) == Parsed(o.(portInFd := 1, portOutFd := 2), false)
    ensures ApplySetting(o, Atom("nouse_stdio")) == Parsed(o.(portInFd := 3, portOutFd := 4), false)
  {
  }

  /** `{env, L}` with a proper list of coercible entries applies them, in order, to the environment. */
  lemma EnvSettingEffect(o: Options, v: Term)
    requires |o.cmd| > 0
    ensures ProperList(v) && (forall e <- Heads(v) :: EnvEntryCoercible(e)) ==>
      ApplySetting(o, Tuple([Atom("env"), v])) == Parsed(o.(env := ApplyEnv(o.env, Heads(v))), false)
  {
  }

  /** Only `stream` changes the mode; only `use_stdio` and `nouse_stdio` change the descriptors. */
  lemma FlagEffectsOnModeAndStdio(o: Options, name: string)
    ensures var r := ApplyFlag(o, name);
      r.mode == (if name == "stream" then Stream else o.mode) &&
      (r.portInFd, r.portOutFd) ==
        (if name == "use_stdio" then (1, 2) else if name == "nouse_stdio" then (3, 4) else Fds(o))
  {
    FlagEffectOnMode(o, name);
    FlagEffectOnStdio(o, name);
  }

  /** Only `stream` changes the mode. */
  lemma FlagEffectOnMode(o: Options, name: string)
    ensures ApplyFlag(o, name).mode == (if name == "stream" then Stream else o.mode)
  {
    if name == "stream" {
    } else if name == "use_stdio" {
    } else if name == "nouse_stdio" {
    } else if name == "hide" {
    } else if name == "exit_status" {
    } else if name == "eof" {
    } else if name == "in" {
    } else if name == "out" {
    } else if name == "binary" {
    }
  }

  /** Only `use_stdio` (1, 2) and `nouse_stdio` (3, 4) change the descriptors. */
  lemma FlagEffectOnStdio(o: Options, name: string)
    ensures Fds(ApplyFlag(o, name)) ==
      (if name == "use_stdio" then (1, 2) else if name == "nouse_stdio" then (3, 4) else Fds(o))
  {
    if name == "stream" {
    } else if name == "use_stdio" {
    } else if name == "nouse_stdio" {
    } else if name == "hide" {
    } else if name == "exit_status" {
    } else if name == "eof" {
    } else if name == "in" {
    } else if name == "out" {
    } else if name == "binary" {
    }
  }

  /** Each boolean flag becomes true exactly when its own atom is read. */
  lemma FlagEffectsOnFlags(o: Options, name: string)
    ensures var r := ApplyFlag(o, name);
      r.hide == (o.hide || name == "hide") &&
      r.sendExitStatus == (o.sendExitStatus || name == "exit_status") &&
      r.sendEof == (o.sendEof || name == "eof")
    ensures var r := ApplyFlag(o, name);
      r.isInOnly == (o.isInOnly || name == "in") &&
      r.isOutOnly == (o.isOutOnly || name == "out") &&
      r.sendBinaryData == (o.sendBinaryData || name == "binary")
  {
    FlagEffectsOnReports(o, name);
    FlagEffectsOnDirection(o, name);
  }

  /** `hide`, `exit_status` and `eof` each set their own flag and no other flag changes it. */
  lemma FlagEffectsOnReports(o: Options, name: string)
    ensures var r := ApplyFlag(o, name);
      r.hide == (o.hide || name == "hide") &&
      r.sendExitStatus == (o.sendExitStatus || name == "exit_status") &&
      r.sendEof == (o.sendEof || name == "eof")
  {
    if name == "stream" {
    } else if name == "use_stdio" {
    } else if name == "nouse_stdio" {
    } else if name == "hide" {
    } else if name == "exit_status" {
    } else if name == "eof" {
    } else if name == "in" {
    } else if name == "out" {
    } else if name == "binary" {
    }
  }

  /** `in`, `out` and `binary` each set their own flag and no other flag changes it. */
  lemma FlagEffectsOnDirection(o: Options, name: string)
    ensures var r := ApplyFlag(o, name);
      r.isInOnly == (o.isInOnly || name == "in") &&
      r.isOutOnly == (o.isOutOnly || name == "out") &&
      r.sendBinaryData == (o.sendBinaryData || name == "binary")
  {
    if name == "stream" {
    } else if name == "use_stdio" {
    } else if name == "nouse_stdio" {
    } else if name == "hide" {
    } else if name == "exit_status" {
    } else if name == "eof" {
    } else if name == "in" {
    } else if name == "out" {
    } else if name == "binary" {
    }
  }

  lemma PairEffects(o: Options, k: Term, v: Term)
    requires |o.cmd| > 0 && SettingCoercible(Tuple([k, v]))
    ensures var r := ApplyPair(o, k, v).opts;
      r.portInFd == o.portInFd && r.portOutFd == o.portOutFd &&
      r.hide == o.hide && r.sendExitStatus == o.sendExitStatus && r.sendEof == o.sendEof &&
      r.isInOnly == o.isInOnly && r.isOutOnly == o.isOutOnly && r.sendBinaryData == o.sendBinaryData &&
      r.mode == (if k == Atom("packet") then Packet else if k == Atom("line") then Line else o.mode)
  {
    if k == Atom("args") {
    } else if k == Atom("arg0") {
    } else if k == Atom("packet") {
    } else if k == Atom("cd") {
    } else if k == Atom("env") {
    } else if k == Atom("line") {
    }
  }

  /** How one setting changes the descriptors and the flags. */
  lemma ApplySettingFlags(o: Options, s: Term)
    requires |o.cmd| > 0 && SettingCoercible(s)
    ensures var r := ApplySetting(o, s).opts;
      Fds(r) == (if StdioOf(s).Some? then StdioOf(s).value else Fds(o)) &&
      r.hide == (o.hide || s == Atom("hide")) &&
      r.sendExitStatus == (o.sendExitStatus || s == Atom("exit_status")) &&
      r.sendEof == (o.sendEof || s == Atom("eof")) &&
      r.isInOnly == (o.isInOnly || s == Atom("in")) &&
      r.isOutOnly == (o.isOutOnly || s == Atom("out")) &&
      r.sendBinaryData == (o.sendBinaryData || s == Atom("binary"))
  {
    ApplySettingReports(o, s);
    ApplySettingDirection(o, s);
  }

  /** How one setting changes the descriptors and the flags `hide`, `exit_status` and `eof`. */
  lemma ApplySettingReports(o: Options, s: Term)
    requires |o.cmd| > 0 && SettingCoercible(s)
    ensures var r := ApplySetting(o, s).opts;
      Fds(r) == (if StdioOf(s).Some? then StdioOf(s).value else Fds(o)) &&
      r.hide == (o.hide || s == Atom("hide")) &&
      r.sendExitStatus == (o.sendExitStatus || s == Atom("exit_status")) &&
      r.sendEof == (o.sendEof || s == Atom("eof"))
  {
    match s
    case Tuple(es) =>
      if |es| == 2 {
        assert es == [es[0], es[1]];
        PairEffects(o, es[0], es[1]);
      }
    case Atom(name) => FlagEffectsOnModeAndStdio(o, name); FlagEffectsOnReports(o, name);
    case _ =>
  }

  /** How one setting changes the flags `in`, `out` and `binary`. */
  lemma ApplySettingDirection(o: Options, s: Term)
    requires |o.cmd| > 0 && SettingCoercible(s)
    ensures var r := ApplySetting(o, s).opts;
      r.isInOnly == (o.isInOnly || s == Atom("in")) &&
      r.isOutOnly == (o.isOutOnly || s == Atom("out")) &&
      r.sendBinaryData == (o.sendBinaryData || s == Atom("binary"))
  {
    match s
    case Tuple(es) =>
      if |es| == 2 {
        assert es == [es[0], es[1]];
        PairEffects(o, es[0], es[1]);
      }
    case Atom(name) => FlagEffectsOnDirection(o, name);
    case _ =>
  }

  /** The mode a setting selects, if it selects one. */
  function ModeOf(s: Term): Option<Mode> {
    match s
    case Tuple(es) =>
      if |es| == 2 && es[0] == Atom("packet") then Some(Packet)
      else if |es| == 2 && es[0] == Atom("line") then Some(Line)
      else None
    case Atom(name) => if name == "stream" then Some(Stream) else None
    case _ => None
  }

  lemma ApplySettingMode(o: Options, s: Term)
    requires |o.cmd| > 0 && SettingCoercible(s) && !RaisesBadarg(s)
    ensures ApplySetting(o, s).opts.mode == if ModeOf(s).Some? then ModeOf(s).value else o.mode
  {
    match s
    case Tuple(es) =>
      if |es| == 2 {
        assert es == [es[0], es[1]];
        PairEffects(o, es[0], es[1]);
      }
    case Atom(name) => FlagEffectsOnModeAndStdio(o, name); FlagEffectsOnFlags(o, name);
    case _ =>
  }

  /** `hs[i]` selects a mode and no later setting does. */
  predicate LastModeAt(hs: seq<Term>, i: int) {
    0 <= i < |hs| && ModeOf(hs[i]).Some? && forall j :: i < j < |hs| ==> ModeOf(hs[j]).None?
  }

  lemma LastModeAtShift(h: Term, ts: seq<Term>, i: int)
    requires 0 <= i < |ts| + 1
    ensures i > 0 ==> (LastModeAt([h] + ts, i) <==> LastModeAt(ts, i - 1))
    ensures i == 0 ==> ((forall j :: 0 < j < |ts| + 1 ==> ModeOf(([h] + ts)[j]).None?) <==>
                        (forall j :: 0 <= j < |ts| ==> ModeOf(ts[j]).None?))
    ensures (forall j :: 0 <= j < |ts| + 1 ==> ModeOf(([h] + ts)[j]).None?) ==>
            ModeOf(h).None? && forall j :: 0 <= j < |ts| ==> ModeOf(ts[j]).None?
  {
    var hs := [h] + ts;
    assert forall j :: 0 <= j < |ts| ==> hs[j + 1] == ts[j];
    assert hs[0] == h;
  }

  /** With no mode-selecting setting reached, the mode is unchanged. */
  lemma {:induction false} ModeUnset(o: Options, list: Term)
    requires |o.cmd| > 0 && Coercible(list)
    requires forall j :: 0 <= j < |Heads(list)| ==> ModeOf(Heads(list)[j]).None?
    ensures !Scan(o, list).badarg ==> Scan(o, list).opts.mode == o.mode
    decreases list
  {
    match list
    case Cons(h, t) =>
      var hs, ts := Heads(list), Heads(t);
      assert hs == [h] + ts;
      var q := ApplySetting(o, h);
      if !q.badarg {
        ApplySettingMode(o, h);
        LastModeAtShift(h, ts, 0);
        ModeUnset(q.opts, t);
      }
    case _ =>
  }

  /** The last mode-selecting setting decides the mode. */
  lemma {:induction false} ModeLastAt(o: Options, list: Term, i: int)
    requires |o.cmd| > 0 && Coercible(list) && LastModeAt(Heads(list), i)
    ensures !Scan(o, list).badarg ==> Scan(o, list).opts.mode == ModeOf(Heads(list)[i]).value
    decreases list
  {
    match list
    case Cons(h, t) =>
      var hs, ts := Heads(list), Heads(t);
      assert hs == [h] + ts;
      var q := ApplySetting(o, h);
      if !q.badarg {
        ApplySettingMode(o, h);
        LastModeAtShift(h, ts, i);
        if i == 0 {
          assert hs[0] == h;
          ModeUnset(q.opts, t);
        } else {
          assert hs[i] == ts[i - 1];
          ModeLastAt(q.opts, t, i - 1);
        }
      }
    case _ =>
      assert false;
  }

  /** Among `{packet,N}`, `{line,N}` and `stream`, the last one reached decides the mode. */
  lemma ModeLastWins(o: Options, list: Term)
    requires |o.cmd| > 0 && Coercible(list)
    ensures var p := Scan(o, list); var hs := Heads(list);
      !p.badarg ==>
        ((forall i :: 0 <= i < |hs| ==> ModeOf(hs[i]).None?) ==> p.opts.mode == o.mode) &&
        (forall i :: LastModeAt(hs, i) ==> p.opts.mode == ModeOf(hs[i]).value)
  {
    var p, hs := Scan(o, list), Heads(list);
    if !p.badarg {
      forall i | LastModeAt(hs, i)
        ensures p.opts.mode == ModeOf(hs[i]).value
      {
        ModeLastAt(o, list, i);
      }
      if forall i :: 0 <= i < |hs| ==> ModeOf(hs[i]).None? {
        ModeUnset(o, list);
        assert p.opts.mode == o.mode;
      }
    }
  }

  /** The descriptors of the child's stdin and stdout. */
  function Fds(o: Options): (int, int) {
    (o.portInFd, o.portOutFd)
  }

  /** The stdio descriptors a setting selects, if it selects them. */
  function StdioOf(s: Term): Option<(int, int)> {
    if s == Atom("use_stdio") then Some((1, 2))
    else if s == Atom("nouse_stdio") then Some((3, 4))
    else None
  }

  /** `hs[i]` selects stdio descriptors and no later setting does. */
  predicate LastStdioAt(hs: seq<Term>, i: int) {
    0 <= i < |hs| && StdioOf(hs[i]).Some? && forall j :: i < j < |hs| ==> StdioOf(hs[j]).None?
  }

  lemma LastStdioAtShift(h: Term, ts: seq<Term>, i: int)
    requires 0 <= i < |ts| + 1
    ensures i > 0 ==> (LastStdioAt([h] + ts, i) <==> LastStdioAt(ts, i - 1))
    ensures i == 0 ==> ((forall j :: 0 < j < |ts| + 1 ==> StdioOf(([h] + ts)[j]).None?) <==>
                        (forall j :: 0 <= j < |ts| ==> StdioOf(ts[j]).None?))
    ensures (forall j :: 0 <= j < |ts| + 1 ==> StdioOf(([h] + ts)[j]).None?) ==>
            StdioOf(h).None? && forall j :: 0 <= j < |ts| ==> StdioOf(ts[j]).None?
  {
    var hs := [h] + ts;
    assert forall j :: 0 <= j < |ts| ==> hs[j + 1] == ts[j];
    assert hs[0] == h;
  }

  /** With neither `use_stdio` nor `nouse_stdio` reached, the descriptors are unchanged. */
  lemma {:induction false} StdioUnset(o: Options, list: Term)
    requires |o.cmd| > 0 && Coercible(list)
    requires forall j :: 0 <= j < |Heads(list)| ==> StdioOf(Heads(list)[j]).None?
    ensures !Scan(o, list).badarg ==> Fds(Scan(o, list).opts) == Fds(o)
    decreases list
  {
    match list
    case Cons(h, t) =>
      var hs, ts := Heads(list), Heads(t);
      assert hs == [h] + ts;
      var q := ApplySetting(o, h);
      if !q.badarg {
        ApplySettingFlags(o, h);
        LastStdioAtShift(h, ts, 0);
        StdioUnset(q.opts, t);
      }
    case _ =>
  }

  /** The last of `use_stdio` and `nouse_stdio` decides the descriptors. */
  lemma {:induction false} StdioLastAt(o: Options, list: Term, i: int)
    requires |o.cmd| > 0 && Coercible(list) && LastStdioAt(Heads(list), i)
    ensures !Scan(o, list).badarg ==> Fds(Scan(o, list).opts) == StdioOf(Heads(list)[i]).value
    decreases list
  {
    match list
    case Cons(h, t) =>
      var hs, ts := Heads(list), Heads(t);
      assert hs == [h] + ts;
      var q := ApplySetting(o, h);
      if !q.badarg {
        ApplySettingFlags(o, h);
        LastStdioAtShift(h, ts, i);
        if i == 0 {
          assert hs[0] == h;
          StdioUnset(q.opts, t);
        } else {
          assert hs[i] == ts[i - 1];
          StdioLastAt(q.opts, t, i - 1);
        }
      }
    case _ =>
      assert false;
  }

  /** Of `use_stdio` and `nouse_stdio`, the last one reached decides the descriptors. */
  lemma StdioLastWins(o: Options, list: Term)
    requires |o.cmd| > 0 && Coercible(list)
    ensures var p := Scan(o, list); var hs := Heads(list);
      !p.badarg ==>
        ((forall i :: 0 <= i < |hs| ==> StdioOf(hs[i]).None?) ==> Fds(p.opts) == Fds(o)) &&
        (forall i :: LastStdioAt(hs, i) ==> Fds(p.opts) == StdioOf(hs[i]).value)
  {
    var p, hs := Scan(o, list), Heads(list);
    if !p.badarg {
      forall i | LastStdioAt(hs, i)
        ensures Fds(p.opts) == StdioOf(hs[i]).value
      {
        StdioLastAt(o, list, i);
      }
      if forall i :: 0 <= i < |hs| ==> StdioOf(hs[i]).None? {
        StdioUnset(o, list);
        assert Fds(p.opts) == Fds(o);
      }
    }
  }

  /** A boolean flag ends up set exactly when it was set before or its atom was reached. */
  lemma {:induction false} FlagsRecordPresence(o: Options, list: Term)
    requires |o.cmd| > 0 && Coercible(list)
    ensures var p := Scan(o, list); var hs := Heads(list);
      !p.badarg ==>
        p.opts.hide == (o.hide || Atom("hide") in hs) &&
        p.opts.sendExitStatus == (o.sendExitStatus || Atom("exit_status") in hs) &&
        p.opts.sendEof == (o.sendEof || Atom("eof") in hs) &&
        p.opts.isInOnly == (o.isInOnly || Atom("in") in hs) &&
        p.opts.isOutOnly == (o.isOutOnly || Atom("out") in hs) &&
        p.opts.sendBinaryData == (o.sendBinaryData || Atom("binary") in hs)
    decreases list
  {
    match list
    case Cons(h, t) =>
      assert Heads(list) == [h] + Heads(t);
      var q := ApplySetting(o, h);
      if !q.badarg {
        ApplySettingFlags(o, h);
        FlagsRecordPresence(q.opts, t);
      }
    case _ =>
  }

  /** The name an `env` entry is about. */
  function EnvName(e: Term): string
    requires EnvEntryCoercible(e)
  {
    e.elems[0].text
  }

  /**
   * Entries of `{env, L}` apply in order, so the last entry naming a variable
   * decides it: `{N, false}` removes N, `{N, V}` maps N to V; a variable no
   * entry names keeps its inherited value.
   */
  lemma {:induction false} EnvLastWriteWins(env: map<string, string>, es: seq<Term>, name: string)
    requires forall e <- es :: EnvEntryCoercible(e)
    ensures var r := ApplyEnv(env, es);
      ((forall i :: 0 <= i < |es| ==> EnvName(es[i]) != name) ==>
         (name in r <==> name in env) && (name in env ==> r[name] == env[name])) &&
      (forall i :: 0 <= i < |es| && EnvName(es[i]) == name && (forall j :: i < j < |es| ==> EnvName(es[j]) != name) ==>
         if es[i].elems[1] == Atom("false") then name !in r else name in r && r[name] == es[i].elems[1].text)
    decreases |es|
  {
    if es != [] {
      var n := |es| - 1;
      var prefix := es[..n];
      EnvLastWriteWins(env, prefix, name);
      var r := ApplyEnv(env, es);
      assert r == PutEnv(ApplyEnv(env, prefix), es[n]);
      forall i | 0 <= i < |es| && EnvEntryCoercible(es[i]) && EnvName(es[i]) == name && (forall j :: i < j < |es| ==> EnvName(es[j]) != name)
        ensures if es[i].elems[1] == Atom("false") then name !in r else name in r && r[name] == es[i].elems[1].text
      {
        if i < n {
          assert prefix[i] == es[i];
          forall j | i < j < |prefix| ensures EnvName(prefix[j]) != name {
            assert prefix[j] == es[j];
          }
        }
      }
      if forall i :: 0 <= i < |es| ==> EnvName(es[i]) != name {
        forall i | 0 <= i < |prefix| ensures EnvName(prefix[i]) != name {
          assert prefix[i] == es[i];
        }
      }
    }
  }
}
