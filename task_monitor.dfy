/**
 * The serial console of firmware/src/task_monitor.cpp: the line assembler
 * that collects inbound bytes into a 96-byte buffer and dispatches `!cmd:`
 * lines, and the pieces of the outbound status line that carry logic (the
 * state names, the lockout field and the printing of NaN).
 */
module Monitor {
  import opened Common
  import FcCore
  import Fusion
  import FcService

  // ---------------------------------------------------------------------
  // Command lines
  // ---------------------------------------------------------------------

  /** `static char cbuf[96]`; one byte is kept for the terminating NUL. */
  const CBUF_SIZE: nat := 96
  const MAX_LINE: nat := 95

  const NUL: u8 := 0x00
  const LF: u8 := 0x0A
  const CR: u8 := 0x0D

  /** "!cmd:" */
  const CMD_PREFIX: seq<u8> := [0x21, 0x63, 0x6D, 0x64, 0x3A]
  /** "soft_reset" */
  const SOFT_RESET: seq<u8> := [0x73, 0x6F, 0x66, 0x74, 0x5F, 0x72, 0x65, 0x73, 0x65, 0x74]
  /** "hard_reset" */
  const HARD_RESET: seq<u8> := [0x68, 0x61, 0x72, 0x64, 0x5F, 0x72, 0x65, 0x73, 0x65, 0x74]

  /** What `Serial.read()` returns: a byte, or -1 when nothing could be read. */
  type ReadResult = x: int | -1 <= x < 0x100

  datatype Command = SoftResetCmd | HardResetCmd

  /** The C string held by a buffer: everything before its first NUL. */
  function CStr(s: seq<u8>): (r: seq<u8>)
    ensures |r| <= |s| && r == s[..|r|]
    ensures forall i :: 0 <= i < |r| ==> r[i] != NUL
    ensures |r| < |s| ==> s[|r|] == NUL
    decreases |s|
  {
    if s == [] || s[0] == NUL then [] else [s[0]] + CStr(s[1..])
  }

  /** Writing a NUL after a line cuts the C string there, whatever the buffer holds beyond it. */
  lemma {:induction false} CStrAtNul(s: seq<u8>, n: nat)
    requires n < |s| && s[n] == NUL
    ensures CStr(s) == CStr(s[..n])
    decreases n
  {
    if n > 0 && s[0] != NUL {
      assert s[1..][..n - 1] == s[..n][1..];
      CStrAtNul(s[1..], n - 1);
    }
  }

  /** `tolower` in the C locale. */
  function ToLower(c: u8): (r: u8)
    ensures 0x41 <= c <= 0x5A ==> r == c + 0x20
    ensures !(0x41 <= c <= 0x5A) ==> r == c
  {
    if 0x41 <= c <= 0x5A then c + 0x20 else c
  }

  /** `strcasecmp(a, b) == 0` for two C strings. */
  predicate EqualsIgnoreCase(a: seq<u8>, b: seq<u8>)
  {
    |a| == |b| && forall i :: 0 <= i < |a| ==> ToLower(a[i]) == ToLower(b[i])
  }

  /** No word equals both "soft_reset" and "hard_reset" ignoring case: they differ in the first letter. */
  lemma SoftIsNotHard(c: seq<u8>)
    ensures EqualsIgnoreCase(c, SOFT_RESET) ==> !EqualsIgnoreCase(c, HARD_RESET)
  {
    if EqualsIgnoreCase(c, SOFT_RESET) {
      assert ToLower(c[0]) == 0x73;
    }
  }

  /**
   * The command a finished line names: it must start with "!cmd:", and the
   * rest must be "soft_reset" or "hard_reset" in any mix of cases.
   */
  function Recognise(line: seq<u8>): (r: Option<Command>)
    ensures r.Some? ==> |line| >= 5 && line[..5] == CMD_PREFIX
    ensures r == Some(SoftResetCmd) <==>
      |line| >= 5 && line[..5] == CMD_PREFIX && EqualsIgnoreCase(line[5..], SOFT_RESET)
    ensures r == Some(HardResetCmd) <==>
      |line| >= 5 && line[..5] == CMD_PREFIX && EqualsIgnoreCase(line[5..], HARD_RESET)
  {
    if |line| >= 5 && line[..5] == CMD_PREFIX then
      var cmd := line[5..];
      SoftIsNotHard(cmd);
      if EqualsIgnoreCase(cmd, SOFT_RESET) then Some(SoftResetCmd)
      else if EqualsIgnoreCase(cmd, HARD_RESET) then Some(HardResetCmd)
      else None
    else None
  }

  /** "!CMD:Soft_Reset" is not a command (the prefix is case-sensitive), but "!cmd:SOFT_RESET" is. */
  lemma CaseRules()
    ensures Recognise(CMD_PREFIX + SOFT_RESET_UPPER) == Some(SoftResetCmd)
    ensures Recognise([0x21, 0x43, 0x4D, 0x44, 0x3A] + SOFT_RESET) == None
  {
    UpperCaseWord();
    assert ([0x21, 0x43, 0x4D, 0x44, 0x3A] + SOFT_RESET)[1] == 0x43;
  }

  /** "SOFT_RESET" */
  const SOFT_RESET_UPPER: seq<u8> := [0x53, 0x4F, 0x46, 0x54, 0x5F, 0x52, 0x45, 0x53, 0x45, 0x54]

  /** The command word in capitals still names the soft reset. */
  lemma UpperCaseWord()
    ensures EqualsIgnoreCase(SOFT_RESET_UPPER, SOFT_RESET)
    ensures (CMD_PREFIX + SOFT_RESET_UPPER)[..5] == CMD_PREFIX
    ensures (CMD_PREFIX + SOFT_RESET_UPPER)[5..] == SOFT_RESET_UPPER
  {
    assert (CMD_PREFIX + SOFT_RESET_UPPER)[..5] == CMD_PREFIX;
    assert (CMD_PREFIX + SOFT_RESET_UPPER)[5..] == SOFT_RESET_UPPER;
  }

  /**
   * One byte into the assembler: CR or LF ends the line (the buffer is
   * emptied and the line's C string is looked up); any other byte is
   * appended while the line is shorter than 95 bytes and dropped otherwise.
   */
  function FeedByte(line: seq<u8>, ch: u8): (r: (seq<u8>, Option<Command>))
    ensures ch == CR || ch == LF ==> r.0 == [] && r.1 == Recognise(CStr(line))
    ensures ch != CR && ch != LF ==> r.1 == None
    ensures ch != CR && ch != LF && |line| < MAX_LINE ==> r.0 == line + [ch]
    ensures ch != CR && ch != LF && |line| >= MAX_LINE ==> r.0 == line
    ensures |line| <= MAX_LINE ==> |r.0| <= MAX_LINE
  {
    if ch == CR || ch == LF then ([], Recognise(CStr(line)))
    else if |line| < MAX_LINE then (line + [ch], None)
    else (line, None)
  }

  /**
   * The inner `while (Serial.available())` loop over the bytes read: it
   * stops at a failed read, and a hard reset restarts the chip, so nothing
   * after it is processed. Returns the line left in the buffer and the
   * commands dispatched, in order.
   */
  function FeedAll(line: seq<u8>, inp: seq<ReadResult>): (r: (seq<u8>, seq<Command>))
    ensures |line| <= MAX_LINE ==> |r.0| <= MAX_LINE
    ensures HardResetCmd in r.1 ==> r.1[|r.1| - 1] == HardResetCmd
    decreases |inp|
  {
    if inp == [] || inp[0] < 0 then (line, [])
    else
      var (l1, c) := FeedByte(line, inp[0] as u8);
      if c == Some(HardResetCmd) then (l1, [HardResetCmd])
      else
        var (l2, cs) := FeedAll(l1, inp[1..]);
        (l2, (if c.Some? then [c.value] else []) + cs)
  }

  /** Without a line ending, a line keeps its first 95 bytes and drops the rest. */
  lemma {:induction false} LongLineTruncated(line: seq<u8>, bytes: seq<ReadResult>)
    requires |line| <= MAX_LINE
    requires forall i :: 0 <= i < |bytes| ==> 0 <= bytes[i] && bytes[i] != CR as int && bytes[i] != LF as int
    ensures FeedAll(line, bytes).1 == []
    ensures var all := line + seq(|bytes|, i requires 0 <= i < |bytes| => bytes[i] as u8);
      FeedAll(line, bytes).0 == all[..if |all| < MAX_LINE then |all| else MAX_LINE]
    decreases |bytes|
  {
    var all := line + seq(|bytes|, i requires 0 <= i < |bytes| => bytes[i] as u8);
    if bytes != [] {
      var l1 := FeedByte(line, bytes[0] as u8).0;
      LongLineTruncated(l1, bytes[1..]);
      var all1 := l1 + seq(|bytes| - 1, i requires 0 <= i < |bytes| - 1 => bytes[1..][i] as u8);
      if |line| < MAX_LINE {
        assert all1 == all;
      } else {
        assert all[..MAX_LINE] == line;
        assert all1[..MAX_LINE] == line;
      }
    } else {
      assert all == line;
    }
  }

  /** An empty line, or a line ending right after another, dispatches nothing. */
  lemma EmptyLineIsNoCommand(ch: u8)
    requires ch == CR || ch == LF
    ensures FeedByte([], ch) == ([], None)
  {
    assert CStr([]) == [];
  }

  /** The assembler's static buffer and length. */
  class Console {
    const cbuf: array<u8>
    var clen: nat

    ghost predicate Valid()
      reads this
    {
      cbuf.Length == CBUF_SIZE && clen <= MAX_LINE
    }

    /** The line collected so far. */
    function Line(): seq<u8>
      reads this, cbuf
      requires Valid()
    {
      cbuf[..clen]
    }

    /** Zero-initialised static storage. */
    constructor ()
      ensures Valid() && Line() == [] && fresh(cbuf)
    {
      cbuf := new u8[CBUF_SIZE](_ => 0);
      clen := 0;
    }

    /** One byte read from the serial port, as the assembler handles it. */
    method Take(ch: u8) returns (c: Option<Command>)
      requires Valid()
      modifies this, cbuf
      ensures Valid()
      ensures (Line(), c) == FeedByte(old(Line()), ch)
    {
      c := None;
      if ch == LF || ch == CR {
        ghost var line := Line();
        cbuf[clen] := NUL;
        CStrAtNul(cbuf[..], clen);
        assert cbuf[..][..clen] == line;
        clen := 0;
        c := Recognise(CStr(cbuf[..]));
      } else if clen < CBUF_SIZE - 1 {
        ghost var line := Line();
        cbuf[clen] := ch as u8;
        clen := clen + 1;
        assert Line() == line + [ch];
      }
    }

    /**
     * One byte of the inner loop: assembled as Take says; a line that is the
     * soft reset command raises the fusion reset request and soft-resets the
     * controller task, and any other byte leaves both tasks alone.
     */
    method Handle(ch: u8, fusion: Fusion.FusionTask, fc: FcService.FcTask) returns (c: Option<Command>)
      requires Valid()
      modifies this, cbuf, fusion, fc, fc.ctx
      ensures Valid()
      ensures (Line(), c) == FeedByte(old(Line()), ch)
      ensures TasksOf(fusion, fc) ==
        if c == Some(SoftResetCmd) then AfterSoftReset(old(TasksOf(fusion, fc))) else old(TasksOf(fusion, fc))
    {
      c := Take(ch);
      if c == Some(SoftResetCmd) {
        SoftResetTasks(fusion, fc);
      }
    }

    /**
     * The command part of one task iteration: bytes are taken until a read
     * fails; a soft reset raises the fusion reset request and soft-resets the
     * controller task, a hard reset stops processing (the chip restarts).
     */
    method Service(inp: seq<ReadResult>, fusion: Fusion.FusionTask, fc: FcService.FcTask)
      returns (cmds: seq<Command>)
      requires Valid()
      modifies this, cbuf, fusion, fc, fc.ctx
      ensures Valid()
      ensures (Line(), cmds) == FeedAll(old(Line()), inp)
      ensures TasksOf(fusion, fc) ==
        if SoftResetCmd in cmds then AfterSoftReset(old(TasksOf(fusion, fc))) else old(TasksOf(fusion, fc))
    {
      ghost var t0 := TasksOf(fusion, fc);
      cmds := [];
      var i := 0;
      ghost var r0 := FeedAll(Line(), inp);
      FeedAllStart(Line(), inp);
      while i < |inp|
        invariant 0 <= i <= |inp|
        invariant Valid()
        invariant r0 == After(cmds, FeedAll(Line(), inp[i..]))
        invariant HardResetCmd !in cmds
        invariant TasksOf(fusion, fc) == if SoftResetCmd in cmds then AfterSoftReset(t0) else t0
      {
        var ch := inp[i];
        if ch < 0 {
          break;
        }
        FeedAllStep(Line(), inp, i, cmds);
        var c := Handle(ch as u8, fusion, fc);
        if c == Some(SoftResetCmd) {
          cmds := cmds + [SoftResetCmd];
        } else if c == Some(HardResetCmd) {
          cmds := cmds + [HardResetCmd];
          return;
        }
        i := i + 1;
      }
      FeedAllStops(Line(), inp, i, cmds);
    }
  }

  /** The SOFT_RESET action: request a fusion reset, then soft-reset the controller task. */
  method SoftResetTasks(fusion: Fusion.FusionTask, fc: FcService.FcTask)
    modifies fusion, fc, fc.ctx
    ensures TasksOf(fusion, fc) == AfterSoftReset(old(TasksOf(fusion, fc)))
  {
    fusion.SoftReset();
    fc.SoftReset();
  }

  /** The state of the two tasks a console command can act on. */
  datatype Tasks = Tasks(fusion: Fusion.FusionView, prevMs: u32, status: FcCore.FcStatus,
                         ctx: FcCore.Ctx, coreInited: bool)

  ghost function TasksOf(fusion: Fusion.FusionTask, fc: FcService.FcTask): Tasks
    reads fusion, fc, fc.ctx
  {
    Tasks(fusion.View(), fc.prevMs, fc.status, fc.ctx.View(), fc.coreInited)
  }

  /**
   * What a soft reset leaves: the fusion reset requested and everything else
   * of the fusion task kept; the controller snapshot zeroed with state SAFE,
   * its context zeroed and marked uninitialised, its tick time kept.
   */
  function AfterSoftReset(t: Tasks): (r: Tasks)
    ensures r.fusion.resetReq && r.status.state == FcCore.FC_SAFE && r.ctx.state == FcCore.FC_SAFE && !r.coreInited
    ensures r.prevMs == t.prevMs && r.fusion.snap == t.fusion.snap
  {
    t.(fusion := t.fusion.(resetReq := true), status := FcService.RESET_STATUS,
       ctx := FcCore.ZERO_CTX, coreInited := false)
  }

  /** The commands dispatched so far followed by those a run still dispatches. */
  function After(done: seq<Command>, r: (seq<u8>, seq<Command>)): (seq<u8>, seq<Command>)
  {
    (r.0, done + r.1)
  }

  /** FeedAll unfolded once at byte `i`: that byte's command joins those already dispatched. */
  lemma FeedAllStep(line: seq<u8>, inp: seq<ReadResult>, i: nat, done: seq<Command>)
    requires i < |inp| && inp[i] >= 0
    ensures var step := FeedByte(line, inp[i] as u8);
      var rest := FeedAll(step.0, inp[i + 1..]);
      (step.1 == Some(HardResetCmd) ==> After(done, FeedAll(line, inp[i..])) == (step.0, done + [HardResetCmd]))
      && (step.1 == Some(SoftResetCmd) ==> After(done, FeedAll(line, inp[i..])) == After(done + [SoftResetCmd], rest))
      && (step.1 == None ==> After(done, FeedAll(line, inp[i..])) == After(done, rest))
  {
    assert inp[i..][1..] == inp[i + 1..];
    var rest := FeedAll(FeedByte(line, inp[i] as u8).0, inp[i + 1..]);
    assert [] + rest.1 == rest.1;
    assert done + ([SoftResetCmd] + rest.1) == (done + [SoftResetCmd]) + rest.1;
  }

  /** A run that has reached its end or a failed read leaves the line as it is and dispatches nothing more. */
  lemma FeedAllStops(line: seq<u8>, inp: seq<ReadResult>, i: nat, done: seq<Command>)
    requires i <= |inp| && (i == |inp| || inp[i] < 0)
    ensures After(done, FeedAll(line, inp[i..])) == (line, done)
  {
    assert done + [] == done;
  }

  /** Before the first byte, the whole run is still ahead. */
  lemma FeedAllStart(line: seq<u8>, inp: seq<ReadResult>)
    ensures After([], FeedAll(line, inp[0..])) == FeedAll(line, inp)
  {
    assert inp[0..] == inp;
    assert [] + FeedAll(line, inp).1 == FeedAll(line, inp).1;
  }

  // ---------------------------------------------------------------------
  // The status line
  // ---------------------------------------------------------------------

  /**
   * state_name: the label of each FcState (the human mode writes "ABORT"
   * for ABORT_LOCKOUT); any other value is "UNKNOWN".
   */
  function StateName(s: u8, human: bool): (name: string)
    ensures s > FcCore.FC_ABORT_LOCKOUT <==> name == "UNKNOWN"
    ensures s == FcCore.FC_ABORT_LOCKOUT ==> name == (if human then "ABORT" else "ABORT_LOCKOUT")
  {
    match s
    case 0 => "SAFE"
    case 1 => "PREFLIGHT"
    case 2 => "ARMED_WAIT"
    case 3 => "BOOST"
    case 4 => "POST_HOLD"
    case 5 => "WINDOW"
    case 6 => "DEPLOYED"
    case 7 => "RETRACT"
    case 8 => "LOCKED"
    case 9 => if human then "ABORT" else "ABORT_LOCKOUT"
    case _ => "UNKNOWN"
  }

  /** Different states get different labels, so a label names its state. */
  lemma StateNamesDistinct(a: u8, b: u8, human: bool)
    requires a <= FcCore.FC_ABORT_LOCKOUT && b <= FcCore.FC_ABORT_LOCKOUT && a != b
    ensures StateName(a, human) != StateName(b, human)
  {
  }

  /** The `lockout` field: 1 exactly in ABORT_LOCKOUT. */
  function Lockout(state: u8): (r: int)
    ensures r == 0 || r == 1
    ensures r == 1 <==> state == FcCore.FC_ABORT_LOCKOUT
  {
    if state == FcCore.FC_ABORT_LOCKOUT then 1 else 0
  }

  /** kv_f: "nan" for a NaN, otherwise the printed value (`render` is Arduino's float printing). */
  function FloatText(x: Flt, render: real -> string): (s: string)
    ensures x.NaN? ==> s == "nan"
    ensures x.Num? ==> s == render(x.v)
  {
    if x.NaN? then "nan" else render(x.v)
  }
}
