/** The panic path: the halt hook that prints the postmortem report through
    `emergencyPrint`, and the assertion handler that formats its cause. The
    hardware reads (thread, core registers, both stacks, SCB, debugger state)
    are taken as a snapshot; every platform call becomes an event in a trace. */
module Panic {
  import opened Outcomes
  import opened Format
  import ZeroHeap

  /** One observable step of the panic path. */
  datatype Event =
    | ApplicationHaltHook           // the application's weak hook
    | PortDisable                   // interrupts off
    | Print(text: string)           // one `emergencyPrint` call
    | Breakpoint                    // `bkpt #0`
    | SystemHalt(cause: string)     // `chSysHalt(cause)`

  /** Compile-time switches: `CH_CFG_USE_REGISTRY`, `__CORTEX_M`,
      `AGGRESSIVE_SIZE_OPTIMIZATION`, and `DEBUG_BUILD` together with
      `CoreDebug_DHCSR_C_DEBUGEN_Msk` being defined. */
  datatype Config = Config(useRegistry: bool, cortexM: nat, aggressiveSizeOptimization: bool, debugBuild: bool)

  /** A `thread_t` as far as the report sees it: its name pointer. */
  datatype Thread = Thread(name: Option<string>)

  datatype CoreRegisters = CoreRegisters(
    control: U32, ipsr: U32, apsr: U32, xpsr: U32, primask: U32,
    basepri: U32, faultmask: U32, fpscr: U32)

  datatype Scb = Scb(
    aircr: U32, scr: U32, ccr: U32, shcsr: U32, cfsr: U32,
    hfsr: U32, dfsr: U32, mmfar: U32, bfar: U32, afsr: U32)

  /** The machine state the hook reads: the current thread (`None` for a null
      `thread_t*`), the core registers, PSP and MSP with the eight words each
      points at, the SCB registers and the DHCSR debugger-enabled bit. */
  datatype Snapshot = Snapshot(
    self: Option<Thread>, core: CoreRegisters,
    psp: U32, processStack: seq<U32>, msp: U32, mainStack: seq<U32>,
    scb: Scb, debuggerAttached: bool)

  predicate StacksReadable(snap: Snapshot) {
    |snap.processStack| == 8 && |snap.mainStack| == 8
  }

  /** `snprintf`-style formatting into a buffer of `size` bytes: at most
      `size - 1` characters are kept, the rest is cut off. */
  function Snprintf(s: string, size: nat): (r: string)
    requires size > 0
    ensures |r| <= size - 1
    ensures |r| == if |s| < size then |s| else size - 1
    ensures r <= s
  {
    if |s| < size then s else s[..size - 1]
  }

  // ---------------------------------------------------------------- the report

  /** `print_register(name, value)`; the eight digits fit the 20-byte buffer
      untruncated (see `Cpu.PrintRegister`). */
  function RegisterLine(name: string, v: U32): seq<Event> {
    [Print(name), Print("\t"), Print(Hex8(v)), Print("\r\n")]
  }

  /** `print_stack(ptr)`. */
  function StackDump(ptr: U32, w: seq<U32>): seq<Event>
    requires |w| == 8
  {
    RegisterLine("Pointer", ptr) + RegisterLine("R0", w[0]) + RegisterLine("R1", w[1])
    + RegisterLine("R2", w[2]) + RegisterLine("R3", w[3]) + RegisterLine("R12", w[4])
    + RegisterLine("R14[LR]", w[5]) + RegisterLine("R15[PC]", w[6]) + RegisterLine("PSR", w[7])
  }

  function CoreDump(cfg: Config, c: CoreRegisters): seq<Event> {
    RegisterLine("CONTROL", c.control) + RegisterLine("IPSR", c.ipsr) + RegisterLine("APSR", c.apsr)
    + RegisterLine("xPSR", c.xpsr) + RegisterLine("PRIMASK", c.primask)
    + (if cfg.cortexM >= 3 then RegisterLine("BASEPRI", c.basepri) + RegisterLine("FAULTMASK", c.faultmask) else [])
    + (if cfg.cortexM >= 4 then RegisterLine("FPSCR", c.fpscr) else [])
  }

  function ScbDump(s: Scb): seq<Event> {
    RegisterLine("AIRCR", s.aircr) + RegisterLine("SCR", s.scr) + RegisterLine("CCR", s.ccr)
    + RegisterLine("SHCSR", s.shcsr) + RegisterLine("CFSR", s.cfsr) + RegisterLine("HFSR", s.hfsr)
    + RegisterLine("DFSR", s.dfsr) + RegisterLine("MMFAR", s.mmfar) + RegisterLine("BFAR", s.bfar)
    + RegisterLine("AFSR", s.afsr)
  }

  /** The thread name is printed only when the registry is compiled in and
      both the thread and its name are non-null. */
  function ThreadName(cfg: Config, self: Option<Thread>): Option<string> {
    if cfg.useRegistry && self.Some? && self.value.name.Some? then self.value.name else None
  }

  function Header(cfg: Config, self: Option<Thread>, msg: Option<string>): seq<Event> {
    [Print("\r\nPANIC [")]
    + (if ThreadName(cfg, self).Some? then [Print(ThreadName(cfg, self).value)] else [])
    + [Print("] ")]
    + (if msg.Some? then [Print(msg.value)] else [])
    + [Print("\r\n")]
  }

  function Dump(cfg: Config, snap: Snapshot): seq<Event>
    requires StacksReadable(snap)
  {
    [Print("\r\nCore registers:\r\n")] + CoreDump(cfg, snap.core)
    + [Print("\r\nProcess stack:\r\n")] + StackDump(snap.psp, snap.processStack)
    + [Print("\r\nMain stack:\r\n")] + StackDump(snap.msp, snap.mainStack)
    + [Print("\r\nSCB:\r\n")] + ScbDump(snap.scb)
  }

  /** Everything `zchSysHaltHook(msg)` does, in order. */
  function HaltHookTrace(cfg: Config, snap: Snapshot, msg: Option<string>): seq<Event>
    requires StacksReadable(snap)
  {
    [ApplicationHaltHook, PortDisable] + Header(cfg, snap.self, msg)
    + (if cfg.aggressiveSizeOptimization then [] else Dump(cfg, snap))
    + (if cfg.debugBuild && snap.debuggerAttached then [Breakpoint] else [])
  }

  // ------------------------------------------------- reading a trace as text

  /** The characters that reach the console: the printed strings, concatenated. */
  function Output(es: seq<Event>): string {
    if es == [] then []
    else Output(es[..|es| - 1]) + (if es[|es| - 1].Print? then es[|es| - 1].text else [])
  }

  lemma {:induction false} OutputAppend(a: seq<Event>, b: seq<Event>)
    ensures Output(a + b) == Output(a) + Output(b)
  {
    if b == [] {
      assert a + b == a;
    } else {
      var b' := b[..|b| - 1];
      var e := b[|b| - 1];
      var t := if e.Print? then e.text else [];
      assert (a + b)[..|a + b| - 1] == a + b';
      assert (a + b)[|a + b| - 1] == e;
      OutputAppend(a, b');
      assert Output(a + b) == (Output(a) + Output(b')) + t;
      assert Output(b) == Output(b') + t;
    }
  }

  lemma OutputOne(e: Event)
    ensures Output([e]) == if e.Print? then e.text else []
  {
    assert [e][..0] == [];
  }

  /** A register line is the name, a tab, eight lowercase hex digits that read
      back as the value, and CRLF. */
  lemma RegisterLineText(name: string, v: U32)
    ensures Output(RegisterLine(name, v)) == name + "\t" + Hex8(v) + "\r\n"
    ensures |Output(RegisterLine(name, v))| == |name| + 11
  {
    var p0, p1, p2, p3 := Print(name), Print("\t"), Print(Hex8(v)), Print("\r\n");
    assert RegisterLine(name, v) == [p0] + [p1] + [p2] + [p3];
    OutputAppend([p0] + [p1] + [p2], [p3]);
    OutputAppend([p0] + [p1], [p2]);
    OutputAppend([p0], [p1]);
    OutputOne(p0);
    OutputOne(p1);
    OutputOne(p2);
    OutputOne(p3);
  }

  /** The text of the report header. */
  lemma HeaderText(cfg: Config, self: Option<Thread>, msg: Option<string>)
    ensures Output(Header(cfg, self, msg)) ==
      "\r\nPANIC [" + (if ThreadName(cfg, self).Some? then ThreadName(cfg, self).value else "")
      + "] " + (if msg.Some? then msg.value else "") + "\r\n"
  {
    var name := if ThreadName(cfg, self).Some? then [Print(ThreadName(cfg, self).value)] else [];
    var m := if msg.Some? then [Print(msg.value)] else [];
    var open, close, crlf := [Print("\r\nPANIC [")], [Print("] ")], [Print("\r\n")];
    assert Header(cfg, self, msg) == open + name + close + m + crlf;
    OutputAppend(open + name + close + m, crlf);
    OutputAppend(open + name + close, m);
    OutputAppend(open + name, close);
    OutputAppend(open, name);
    OutputOne(open[0]);
    OutputOne(close[0]);
    OutputOne(crlf[0]);
    if name != [] { OutputOne(name[0]); } else { assert Output(name) == []; }
    if m != [] { OutputOne(m[0]); } else { assert Output(m) == []; }
  }

  // ------------------------------------------------------ order of the events

  lemma Assoc(a: seq<Event>, b: seq<Event>, c: seq<Event>)
    ensures a + b + c == a + (b + c)
  {
  }

  lemma AppendEmpty(a: seq<Event>, b: seq<Event>)
    requires b == []
    ensures a + b == a
  {
  }

  predicate OnlyPrints(es: seq<Event>) {
    forall e :: e in es ==> e.Print?
  }

  lemma OnlyPrintsAppend(a: seq<Event>, b: seq<Event>)
    requires OnlyPrints(a) && OnlyPrints(b)
    ensures OnlyPrints(a + b)
  {
  }

  lemma RegisterLineOnlyPrints(name: string, v: U32)
    ensures OnlyPrints(RegisterLine(name, v))
  {
  }

  lemma StackDumpOnlyPrints(ptr: U32, w: seq<U32>)
    requires |w| == 8
    ensures OnlyPrints(StackDump(ptr, w))
  {
  }

  lemma CoreDumpOnlyPrints(cfg: Config, c: CoreRegisters)
    ensures OnlyPrints(CoreDump(cfg, c))
  {
  }

  lemma ScbDumpOnlyPrints(s: Scb)
    ensures OnlyPrints(ScbDump(s))
  {
  }

  lemma DumpOnlyPrints(cfg: Config, snap: Snapshot)
    requires StacksReadable(snap)
    ensures OnlyPrints(Dump(cfg, snap))
  {
    var b0, b1, b2, b3 := [Print("\r\nCore registers:\r\n")], [Print("\r\nProcess stack:\r\n")],
      [Print("\r\nMain stack:\r\n")], [Print("\r\nSCB:\r\n")];
    var c := CoreDump(cfg, snap.core);
    var p := StackDump(snap.psp, snap.processStack);
    var m := StackDump(snap.msp, snap.mainStack);
    var s := ScbDump(snap.scb);
    CoreDumpOnlyPrints(cfg, snap.core);
    StackDumpOnlyPrints(snap.psp, snap.processStack);
    StackDumpOnlyPrints(snap.msp, snap.mainStack);
    ScbDumpOnlyPrints(snap.scb);
    OnlyPrintsAppend(b0, c);
    OnlyPrintsAppend(b0 + c, b1);
    OnlyPrintsAppend(b0 + c + b1, p);
    OnlyPrintsAppend(b0 + c + b1 + p, b2);
    OnlyPrintsAppend(b0 + c + b1 + p + b2, m);
    OnlyPrintsAppend(b0 + c + b1 + p + b2 + m, b3);
    OnlyPrintsAppend(b0 + c + b1 + p + b2 + m + b3, s);
  }

  lemma HeaderOnlyPrints(cfg: Config, self: Option<Thread>, msg: Option<string>)
    ensures OnlyPrints(Header(cfg, self, msg))
  {
  }

  /** The shape of any trace made of the two opening events, console output,
      and an optional final breakpoint. */
  lemma {:induction false} ShapeOfTrace(h: seq<Event>, d: seq<Event>, b: seq<Event>)
    requires OnlyPrints(h) && OnlyPrints(d) && (b == [] || b == [Breakpoint])
    ensures var t := [ApplicationHaltHook, PortDisable] + h + d + b;
      t[0] == ApplicationHaltHook && t[1] == PortDisable
      && (forall i :: 2 <= i < |t| ==> t[i].Print? || (t[i] == Breakpoint && i == |t| - 1))
      && (Breakpoint in t <==> b != [])
  {
    var t := [ApplicationHaltHook, PortDisable] + h + d + b;
    var x := [ApplicationHaltHook, PortDisable] + h + d;
    forall i | 2 <= i < |t|
      ensures t[i].Print? || (t[i] == Breakpoint && i == |t| - 1)
    {
      if i < 2 + |h| {
        assert t[i] == h[i - 2];
        assert h[i - 2] in h;
      } else if i < |x| {
        assert t[i] == d[i - 2 - |h|];
        assert d[i - 2 - |h|] in d;
      }
    }
    assert Breakpoint !in h && Breakpoint !in d;
  }

  /** The application hook runs first, interrupts are disabled next, then
      only console output follows, ending in a breakpoint exactly when a debug
      build sees an attached debugger. The hook itself never halts. */
  lemma HaltHookOrder(cfg: Config, snap: Snapshot, msg: Option<string>)
    requires StacksReadable(snap)
    ensures var t := HaltHookTrace(cfg, snap, msg);
      |t| >= 2 && t[0] == ApplicationHaltHook && t[1] == PortDisable
      && (forall i :: 2 <= i < |t| ==> t[i].Print? || (t[i] == Breakpoint && i == |t| - 1))
      && (Breakpoint in t <==> cfg.debugBuild && snap.debuggerAttached)
  {
    HeaderOnlyPrints(cfg, snap.self, msg);
    DumpOnlyPrints(cfg, snap);
    ShapeOfTrace(Header(cfg, snap.self, msg),
      if cfg.aggressiveSizeOptimization then [] else Dump(cfg, snap),
      if cfg.debugBuild && snap.debuggerAttached then [Breakpoint] else []);
  }

  /** Only the printed part of a trace reaches the console. */
  lemma {:induction false} OutputOfTrace(h: seq<Event>, b: seq<Event>)
    requires b == [] || b == [Breakpoint]
    ensures Output([ApplicationHaltHook, PortDisable] + h + [] + b) == Output(h)
  {
    var ap: seq<Event> := [ApplicationHaltHook, PortDisable];
    var e: seq<Event> := [];
    OutputAppend(ap + h + e, b);
    OutputAppend(ap + h, e);
    OutputAppend(ap, h);
    assert ap == [ApplicationHaltHook] + [PortDisable];
    OutputAppend([ApplicationHaltHook], [PortDisable]);
    OutputOne(ApplicationHaltHook);
    OutputOne(PortDisable);
    if b != [] { OutputOne(Breakpoint); } else { assert Output(b) == []; }
    assert Output(e) == [];
  }

  /** With `AGGRESSIVE_SIZE_OPTIMIZATION` the console sees the header only. */
  lemma SizeOptimizedReportIsHeader(cfg: Config, snap: Snapshot, msg: Option<string>)
    requires StacksReadable(snap) && cfg.aggressiveSizeOptimization
    ensures Output(HaltHookTrace(cfg, snap, msg)) ==
      "\r\nPANIC [" + (if ThreadName(cfg, snap.self).Some? then ThreadName(cfg, snap.self).value else "")
      + "] " + (if msg.Some? then msg.value else "") + "\r\n"
  {
    OutputOfTrace(Header(cfg, snap.self, msg), if cfg.debugBuild && snap.debuggerAttached then [Breakpoint] else []);
    HeaderText(cfg, snap.self, msg);
  }

  // --------------------------------------------------- the assertion handler

  function FuncText(func: Option<string>): string {
    if func.Some? then func.value else ""
  }

  /** `"%s:%d:%s:%s"` applied to file, line, function (empty when null) and expression. */
  function AssertMessage(file: string, line: int, func: Option<string>, expr: string): string {
    file + ":" + IntToDecimal(line) + ":" + FuncText(func) + ":" + expr
  }

  /** The cause `__assert_func` hands to the halt: the message as it fits into
      the 200-byte static buffer. */
  function AssertCause(file: string, line: int, func: Option<string>, expr: string): (r: string)
    ensures |r| <= 199
    ensures r <= AssertMessage(file, line, func, expr)
    ensures r == AssertMessage(file, line, func, expr) <==> |AssertMessage(file, line, func, expr)| <= 199
    ensures |r| >= |file| + 3 || |r| == 199
    ensures |AssertMessage(file, line, func, expr)| > 199 ==> |r| == 199
    ensures |file| < 199 ==> r[..|file| + 1] == file + ":"
  {
    Snprintf(AssertMessage(file, line, func, expr), 200)
  }

  /** Splits at the first colon: the text before it and the text after it. */
  function SplitFirst(s: string): (string, string) {
    if s == [] then ([], [])
    else if s[0] == ':' then ([], s[1..])
    else (var (a, b) := SplitFirst(s[1..]); ([s[0]] + a, b))
  }

  lemma {:induction false} SplitFirstConcat(x: string, y: string)
    requires ':' !in x
    ensures SplitFirst(x + ":" + y) == (x, y)
  {
    if x != [] {
      assert (x + ":" + y)[1..] == x[1..] + ":" + y;
      SplitFirstConcat(x[1..], y);
      assert [x[0]] + x[1..] == x;
    } else {
      assert x + ":" + y == [':'] + y;
    }
  }

  /** When file and function name hold no colon and the message fits, the
      first three colons of the cause separate file, line and function from
      the expression, and the line reads back as the number. */
  lemma AssertCauseFields(file: string, line: int, func: Option<string>, expr: string)
    requires ':' !in file && ':' !in FuncText(func)
    requires |AssertMessage(file, line, func, expr)| <= 199
    ensures var (f, r1) := SplitFirst(AssertCause(file, line, func, expr));
      var (l, r2) := SplitFirst(r1);
      var (g, e) := SplitFirst(r2);
      f == file && ParseInt(l) == line && g == FuncText(func) && e == expr
  {
    var num := IntToDecimal(line);
    var fn := FuncText(func);
    var r2 := fn + ":" + expr;
    var r1 := num + ":" + r2;
    assert AssertCause(file, line, func, expr) == file + ":" + r1;
    SplitFirstConcat(file, r1);
    forall i | 0 <= i < |num|
      ensures num[i] != ':'
    {
    }
    assert ':' !in num;
    SplitFirstConcat(num, r2);
    SplitFirstConcat(fn, expr);
    IntToDecimalRoundTrip(line);
  }

  /** A failed allocation check in a debug build halts with a non-empty cause
      that ends with the failed condition whenever the message fits. */
  lemma AllocationAssertCause(sz: nat, file: string, line: int, func: Option<string>)
    requires sz != 0
    ensures ZeroHeap.Malloc(true, sz).AssertFailed?
    ensures var c := AssertCause(file, line, func, ZeroHeap.Malloc(true, sz).expr);
      |c| > 0 && (|AssertMessage(file, line, func, "sz == 0")| <= 199 ==> c[|c| - 7..] == "sz == 0")
  {
  }

  // ---------------------------------------------------------------- the machine

  /** The processor as the panic path drives it: the trace of what it did. */
  class Cpu {
    var events: seq<Event>

    constructor ()
      ensures events == []
    {
      events := [];
    }

    /** `applicationHaltHook()`. */
    method RunApplicationHaltHook()
      modifies this
      ensures events == old(events) + [ApplicationHaltHook]
    {
      events := events + [ApplicationHaltHook];
    }

    /** `port_disable()`. */
    method DisableInterrupts()
      modifies this
      ensures events == old(events) + [PortDisable]
    {
      events := events + [PortDisable];
    }

    /** `emergencyPrint(str)`. */
    method EmergencyPrint(str: string)
      modifies this
      ensures events == old(events) + [Print(str)]
    {
      events := events + [Print(str)];
    }

    /** `bkpt #0`. */
    method Bkpt()
      modifies this
      ensures events == old(events) + [Breakpoint]
    {
      events := events + [Breakpoint];
    }

    /** `chSysHalt(reason)`. */
    method ChSysHalt(reason: string)
      modifies this
      ensures events == old(events) + [SystemHalt(reason)]
    {
      events := events + [SystemHalt(reason)];
    }

    /** `print_register`: the value is formatted into a 20-byte buffer, which
        holds all eight digits. */
    method PrintRegister(name: string, value: U32)
      modifies this
      ensures events == old(events) + RegisterLine(name, value)
    {
      EmergencyPrint(name);
      EmergencyPrint("\t");
      var buffer := Snprintf(Hex8(value), 20);
      EmergencyPrint(buffer);
      EmergencyPrint("\r\n");
    }

    /** `print_stack`. */
    method PrintStack(ptr: U32, w: seq<U32>)
      requires |w| == 8
      modifies this
      ensures events == old(events) + StackDump(ptr, w)
    {
      ghost var e := events;
      ghost var done: seq<Event> := [];
      PrintRegister("Pointer", ptr);
      Assoc(e, done, RegisterLine("Pointer", ptr));
      done := done + RegisterLine("Pointer", ptr);
      PrintRegister("R0", w[0]);
      Assoc(e, done, RegisterLine("R0", w[0]));
      done := done + RegisterLine("R0", w[0]);
      PrintRegister("R1", w[1]);
      Assoc(e, done, RegisterLine("R1", w[1]));
      done := done + RegisterLine("R1", w[1]);
      PrintRegister("R2", w[2]);
      Assoc(e, done, RegisterLine("R2", w[2]));
      done := done + RegisterLine("R2", w[2]);
      PrintRegister("R3", w[3]);
      Assoc(e, done, RegisterLine("R3", w[3]));
      done := done + RegisterLine("R3", w[3]);
      PrintRegister("R12", w[4]);
      Assoc(e, done, RegisterLine("R12", w[4]));
      done := done + RegisterLine("R12", w[4]);
      PrintRegister("R14[LR]", w[5]);
      Assoc(e, done, RegisterLine("R14[LR]", w[5]));
      done := done + RegisterLine("R14[LR]", w[5]);
      PrintRegister("R15[PC]", w[6]);
      Assoc(e, done, RegisterLine("R15[PC]", w[6]));
      done := done + RegisterLine("R15[PC]", w[6]);
      PrintRegister("PSR", w[7]);
      Assoc(e, done, RegisterLine("PSR", w[7]));
      done := done + RegisterLine("PSR", w[7]);
      assert [] + RegisterLine("Pointer", ptr) == RegisterLine("Pointer", ptr);
    }

    method PrintCoreRegisters(cfg: Config, c: CoreRegisters)
      modifies this
      ensures events == old(events) + CoreDump(cfg, c)
    {
      ghost var e := events;
      ghost var done: seq<Event> := [];
      PrintRegister("CONTROL", c.control);
      Assoc(e, done, RegisterLine("CONTROL", c.control));
      done := done + RegisterLine("CONTROL", c.control);
      PrintRegister("IPSR", c.ipsr);
      Assoc(e, done, RegisterLine("IPSR", c.ipsr));
      done := done + RegisterLine("IPSR", c.ipsr);
      PrintRegister("APSR", c.apsr);
      Assoc(e, done, RegisterLine("APSR", c.apsr));
      done := done + RegisterLine("APSR", c.apsr);
      PrintRegister("xPSR", c.xpsr);
      Assoc(e, done, RegisterLine("xPSR", c.xpsr));
      done := done + RegisterLine("xPSR", c.xpsr);
      PrintRegister("PRIMASK", c.primask);
      Assoc(e, done, RegisterLine("PRIMASK", c.primask));
      done := done + RegisterLine("PRIMASK", c.primask);
      assert [] + RegisterLine("CONTROL", c.control) == RegisterLine("CONTROL", c.control);
      ghost var m3 := if cfg.cortexM >= 3 then RegisterLine("BASEPRI", c.basepri) + RegisterLine("FAULTMASK", c.faultmask) else [];
      ghost var m4 := if cfg.cortexM >= 4 then RegisterLine("FPSCR", c.fpscr) else [];
      ghost var g := events;
      if cfg.cortexM >= 3 {
        PrintRegister("BASEPRI", c.basepri);
        PrintRegister("FAULTMASK", c.faultmask);
        Assoc(g, RegisterLine("BASEPRI", c.basepri), RegisterLine("FAULTMASK", c.faultmask));
      } else {
        assert g + m3 == g;
      }
      Assoc(e, done, m3);
      g := events;
      if cfg.cortexM >= 4 {
        PrintRegister("FPSCR", c.fpscr);
      } else {
        assert g + m4 == g;
      }
      Assoc(e, done + m3, m4);
    }

    method PrintScbRegisters(s: Scb)
      modifies this
      ensures events == old(events) + ScbDump(s)
    {
      ghost var e := events;
      ghost var done: seq<Event> := [];
      PrintRegister("AIRCR", s.aircr);
      Assoc(e, done, RegisterLine("AIRCR", s.aircr));
      done := done + RegisterLine("AIRCR", s.aircr);
      PrintRegister("SCR", s.scr);
      Assoc(e, done, RegisterLine("SCR", s.scr));
      done := done + RegisterLine("SCR", s.scr);
      PrintRegister("CCR", s.ccr);
      Assoc(e, done, RegisterLine("CCR", s.ccr));
      done := done + RegisterLine("CCR", s.ccr);
      PrintRegister("SHCSR", s.shcsr);
      Assoc(e, done, RegisterLine("SHCSR", s.shcsr));
      done := done + RegisterLine("SHCSR", s.shcsr);
      PrintRegister("CFSR", s.cfsr);
      Assoc(e, done, RegisterLine("CFSR", s.cfsr));
      done := done + RegisterLine("CFSR", s.cfsr);
      PrintRegister("HFSR", s.hfsr);
      Assoc(e, done, RegisterLine("HFSR", s.hfsr));
      done := done + RegisterLine("HFSR", s.hfsr);
      PrintRegister("DFSR", s.dfsr);
      Assoc(e, done, RegisterLine("DFSR", s.dfsr));
      done := done + RegisterLine("DFSR", s.dfsr);
      PrintRegister("MMFAR", s.mmfar);
      Assoc(e, done, RegisterLine("MMFAR", s.mmfar));
      done := done + RegisterLine("MMFAR", s.mmfar);
      PrintRegister("BFAR", s.bfar);
      Assoc(e, done, RegisterLine("BFAR", s.bfar));
      done := done + RegisterLine("BFAR", s.bfar);
      PrintRegister("AFSR", s.afsr);
      Assoc(e, done, RegisterLine("AFSR", s.afsr));
      done := done + RegisterLine("AFSR", s.afsr);
      assert [] + RegisterLine("AIRCR", s.aircr) == RegisterLine("AIRCR", s.aircr);
    }

    /** `zchSysHaltHook(msg)`: returns after the report (and the breakpoint). */
    method ZchSysHaltHook(cfg: Config, snap: Snapshot, msg: Option<string>)
      requires StacksReadable(snap)
      modifies this
      ensures events == old(events) + HaltHookTrace(cfg, snap, msg)
    {
      ghost var e := events;
      RunApplicationHaltHook();
      DisableInterrupts();
      ghost var ap: seq<Event> := [ApplicationHaltHook, PortDisable];
      Assoc(e, [ApplicationHaltHook], [PortDisable]);
      assert [ApplicationHaltHook] + [PortDisable] == ap;
      ghost var h := Header(cfg, snap.self, msg);
      HeaderPrinted(cfg, snap.self, msg);
      Assoc(e, ap, h);
      ghost var afterHeader := events;
      ghost var d := if cfg.aggressiveSizeOptimization then [] else Dump(cfg, snap);
      if !cfg.aggressiveSizeOptimization {
        PrintDump(cfg, snap);
      } else {
        AppendEmpty(afterHeader, d);
      }
      Assoc(e, ap + h, d);
      ghost var afterDump := events;
      ghost var b := if cfg.debugBuild && snap.debuggerAttached then [Breakpoint] else [];
      if cfg.debugBuild && snap.debuggerAttached {
        Bkpt();
      } else {
        AppendEmpty(afterDump, b);
      }
      Assoc(e, ap + h + d, b);
    }

    /** The header part of `zchSysHaltHook`. */
    method HeaderPrinted(cfg: Config, self: Option<Thread>, msg: Option<string>)
      modifies this
      ensures events == old(events) + Header(cfg, self, msg)
    {
      ghost var e := events;
      ghost var nm := if ThreadName(cfg, self).Some? then [Print(ThreadName(cfg, self).value)] else [];
      ghost var m := if msg.Some? then [Print(msg.value)] else [];
      EmergencyPrint("\r\nPANIC [");
      ghost var g := events;
      if cfg.useRegistry {
        var pthread := self;
        if pthread.Some? && pthread.value.name.Some? {
          EmergencyPrint(pthread.value.name.value);
        }
      }
      if nm == [] { AppendEmpty(g, nm); }
      Assoc(e, [Print("\r\nPANIC [")], nm);
      EmergencyPrint("] ");
      Assoc(e, [Print("\r\nPANIC [")] + nm, [Print("] ")]);
      g := events;
      if msg.Some? {
        EmergencyPrint(msg.value);
      } else {
        AppendEmpty(g, m);
      }
      Assoc(e, [Print("\r\nPANIC [")] + nm + [Print("] ")], m);
      EmergencyPrint("\r\n");
      Assoc(e, [Print("\r\nPANIC [")] + nm + [Print("] ")] + m, [Print("\r\n")]);
    }

    /** The register and stack part of `zchSysHaltHook`. */
    method PrintDump(cfg: Config, snap: Snapshot)
      requires StacksReadable(snap)
      modifies this
      ensures events == old(events) + Dump(cfg, snap)
    {
      ghost var e := events;
      ghost var b0, b1, b2, b3 := [Print("\r\nCore registers:\r\n")], [Print("\r\nProcess stack:\r\n")],
        [Print("\r\nMain stack:\r\n")], [Print("\r\nSCB:\r\n")];
      ghost var c := CoreDump(cfg, snap.core);
      ghost var p := StackDump(snap.psp, snap.processStack);
      ghost var m := StackDump(snap.msp, snap.mainStack);
      ghost var s := ScbDump(snap.scb);
      EmergencyPrint("\r\nCore registers:\r\n");
      PrintCoreRegisters(cfg, snap.core);
      Assoc(e, b0, c);
      EmergencyPrint("\r\nProcess stack:\r\n");
      Assoc(e, b0 + c, b1);
      PrintStack(snap.psp, snap.processStack);
      Assoc(e, b0 + c + b1, p);
      EmergencyPrint("\r\nMain stack:\r\n");
      Assoc(e, b0 + c + b1 + p, b2);
      PrintStack(snap.msp, snap.mainStack);
      Assoc(e, b0 + c + b1 + p + b2, m);
      EmergencyPrint("\r\nSCB:\r\n");
      Assoc(e, b0 + c + b1 + p + b2 + m, b3);
      PrintScbRegisters(snap.scb);
      Assoc(e, b0 + c + b1 + p + b2 + m + b3, s);
    }

    /** `_unhandled_exception`: an interrupt without a handler halts the
        system with a fixed cause. */
    method UnhandledException()
      modifies this
      ensures events == old(events) + [SystemHalt("UNDEFINED IRQ")]
    {
      ChSysHalt("UNDEFINED IRQ");
    }

    /** `__assert_func`: interrupts off, the message formatted into the static
        buffer, then the halt. */
    method AssertFunc(file: string, line: int, func: Option<string>, expr: string)
      modifies this
      ensures events == old(events) + [PortDisable, SystemHalt(AssertCause(file, line, func, expr))]
    {
      DisableInterrupts();
      var buffer := Snprintf(file + ":" + IntToDecimal(line) + ":" + (if func == None then "" else func.value) + ":" + expr, 200);
      ChSysHalt(buffer);
    }
  }
}
