/**
 The boot line: the in-place editor over the 64-byte header buffer, the search
 for "nofb", and the copy into BootInfo.
 */
module BootLine {
  import opened ByteFields
  import opened BootMemory
  import opened BootMachine

  const ENTER: byte := 13
  const BACKSPACE: byte := 8
  const NOFB: seq<byte> := [0x6E, 0x6F, 0x66, 0x62]

  /** The NUL-terminated line that starts `buf`. */
  function LineOf(buf: seq<byte>): seq<byte> {
    if buf == [] || buf[0] == 0 then [] else [buf[0]] + LineOf(buf[1..])
  }

  /** The header's buffer, its 64 bytes and nothing behind them. */
  function Buffer(mem: Memory): (buf: seq<byte>)
    ensures |buf| == CMDLINE_LIMIT + 1
  {
    mem[CMDLINE..CMDLINE + CMDLINE_LIMIT + 1]
  }

  /** The line in the header's buffer. */
  function Line(mem: Memory): seq<byte>
  {
    LineOf(Buffer(mem))
  }

  /** `buf` starts with `line`, its terminator right behind it. */
  ghost predicate Terminated(buf: seq<byte>, line: seq<byte>) {
    line + [0] <= buf && 0 !in line
  }

  lemma {:induction false} LineIsTerminated(buf: seq<byte>)
    requires 0 in buf
    ensures Terminated(buf, LineOf(buf))
  {
    if buf[0] != 0 {
      LineIsTerminated(buf[1..]);
      assert buf == [buf[0]] + buf[1..];
    }
  }

  lemma {:induction false} TerminatedIsLine(buf: seq<byte>, line: seq<byte>)
    requires Terminated(buf, line)
    ensures LineOf(buf) == line
  {
    if line != [] {
      assert buf[0] == line[0];
      assert line[1..] + [0] == (line + [0])[1..];
      TerminatedIsLine(buf[1..], line[1..]);
    }
  }

  // ------------------------------------------------------------------
  // The editor
  // ------------------------------------------------------------------

  /** One key's effect on a line, as a list editor has it. */
  function Edit(line: seq<byte>, key: byte): seq<byte> {
    if key == BACKSPACE then (if line == [] then [] else line[..|line| - 1])
    else if 0x20 <= key <= 0x7E && |line| < CMDLINE_LIMIT then line + [key]
    else line
  }

  /** The line after the keys up to the first Enter. */
  function Edited(line: seq<byte>, keys: seq<byte>): seq<byte>
    decreases |keys|
  {
    if keys == [] || keys[0] == ENTER then line else Edited(Edit(line, keys[0]), keys[1..])
  }

  /** The line the kernel is to be given. */
  function FinalLine(b: Bios, mem: Memory): seq<byte> {
    if b.interrupted then Edited(Line(mem), b.keys) else Line(mem)
  }

  /** Printable characters go behind the line, as long as it has fewer than 63. */
  lemma {:induction false} TypedIn(line: seq<byte>, typed: seq<byte>, rest: seq<byte>)
    requires |line| + |typed| <= 63 && forall k :: 0 <= k < |typed| ==> 32 <= typed[k] <= 126
    ensures Edited(line, typed + rest) == Edited(line + typed, rest)
    decreases |typed|
  {
    if typed == [] {
      assert typed + rest == rest && line + typed == line;
    } else {
      assert (typed + rest)[1..] == typed[1..] + rest;
      assert line + [typed[0]] + typed[1..] == line + typed;
      TypedIn(line + [typed[0]], typed[1..], rest);
    }
  }

  /** So many backspaces take so many characters off it, and no more than there are. */
  lemma {:induction false} RubbedOut(line: seq<byte>, n: nat, rest: seq<byte>)
    ensures Edited(line, seq(n, _ => 8) + rest) == Edited(if n <= |line| then line[..|line| - n] else [], rest)
    decreases n
  {
    var keys: seq<byte> := seq(n, _ => 8);
    if n == 0 {
      assert keys + rest == rest && line[..|line|] == line;
    } else {
      assert (keys + rest)[1..] == seq(n - 1, _ => 8) + rest;
      var less := if line == [] then [] else line[..|line| - 1];
      RubbedOut(less, n - 1, rest);
      assert n <= |line| ==> less[..|less| - (n - 1)] == line[..|line| - n];
    }
  }

  /** Any other key but Enter does nothing, and neither does a character the line has no room for. */
  lemma Ignored(line: seq<byte>, key: byte, rest: seq<byte>)
    requires key != 8 && key != 13 && (key < 32 || key > 126 || |line| >= 63)
    ensures Edited(line, [key] + rest) == Edited(line, rest)
  {
    assert ([key] + rest)[1..] == rest;
  }

  /** Enter ends it, whatever is typed behind, and so does the end of the keys. */
  lemma EnterEnds(line: seq<byte>, rest: seq<byte>)
    ensures Edited(line, [13] + rest) == line == Edited(line, [])
  {
  }

  /** Left alone the line is the patched one; typed over, it is that with what was typed behind it. */
  lemma LineTyped(b: Bios, mem: Memory, typed: seq<byte>, rest: seq<byte>)
    requires |Line(mem)| + |typed| <= 63 && forall k :: 0 <= k < |typed| ==> 32 <= typed[k] <= 126
    ensures !b.interrupted ==> FinalLine(b, mem) == Line(mem)
    ensures b.interrupted && b.keys == typed + [13] + rest ==> FinalLine(b, mem) == Line(mem) + typed
  {
    assert typed + [13] + rest == typed + ([13] + rest);
    TypedIn(Line(mem), typed, [13] + rest);
    EnterEnds(Line(mem) + typed, rest);
  }

  /** The header's buffer holds `line`, and `di` stands on its terminator. */
  ghost predicate AtEnd(mem: Memory, line: seq<byte>, di: nat) {
    && |line| <= CMDLINE_LIMIT
    && di == CMDLINE + |line|
    && (forall i :: CMDLINE <= i < di ==> mem[i] == line[i - CMDLINE]) && 0 !in line
    && mem[di] == 0
  }

  lemma AtEndIsLine(mem: Memory, line: seq<byte>, di: nat)
    requires AtEnd(mem, line, di)
    ensures Line(mem) == line
  {
    forall i | 0 <= i < |line| ensures line[i] == mem[CMDLINE + i] {
    }
    TerminatedIsLine(mem[CMDLINE..CMDLINE + CMDLINE_LIMIT + 1], line);
  }

  lemma LineIsAtEnd(mem: Memory)
    requires 0 in mem[CMDLINE..CMDLINE + CMDLINE_LIMIT + 1]
    ensures AtEnd(mem, Line(mem), CMDLINE + |Line(mem)|)
  {
    var buf := mem[CMDLINE..CMDLINE + CMDLINE_LIMIT + 1];
    LineIsTerminated(buf);
    var l := Line(mem);
    forall i | CMDLINE <= i < CMDLINE + |l| ensures mem[i] == l[i - CMDLINE] {
      assert (l + [0])[i - CMDLINE] == buf[i - CMDLINE];
    }
    assert (l + [0])[|l|] == buf[|l|];
  }

  lemma Typed(mem: Memory, line: seq<byte>, di: nat, key: byte)
    requires AtEnd(mem, line, di) && |line| < CMDLINE_LIMIT && key != 0
    ensures AtEnd(mem[di := key][di + 1 := 0], line + [key], di + 1)
  {
    var m1, l1 := mem[di := key][di + 1 := 0], line + [key];
    forall i | CMDLINE <= i < di + 1 ensures m1[i] == l1[i - CMDLINE] {
      if i < di { assert m1[i] == mem[i] && l1[i - CMDLINE] == line[i - CMDLINE]; }
    }
  }

  lemma Rubbed(mem: Memory, line: seq<byte>, di: nat)
    requires AtEnd(mem, line, di) && line != []
    ensures AtEnd(mem[di - 1 := 0], line[..|line| - 1], di - 1)
  {
    var m1, l1 := mem[di - 1 := 0], line[..|line| - 1];
    forall i | CMDLINE <= i < di - 1 ensures m1[i] == l1[i - CMDLINE] {
      assert m1[i] == mem[i] && l1[i - CMDLINE] == line[i - CMDLINE];
    }
  }

  lemma AtEndFrame(m0: Memory, m1: Memory, line: seq<byte>, di: nat)
    requires AtEnd(m0, line, di) && KeepsBut(m0, m1, 0, 0)
    ensures AtEnd(m1, line, di)
  {
  }

  /** One key taken, in place. */
  method TakeKey(m: Machine, di: nat, key: byte, ghost line: seq<byte>) returns (di': nat)
    requires key != ENTER && AtEnd(m.mem, line, di)
    modifies m`mem, m`flat, m`calls
    ensures AtEnd(m.mem, Edit(line, key), di')
    ensures KeepsBut(old(m.mem), m.mem, CMDLINE, CMDLINE + CMDLINE_LIMIT + 1)
  {
    di' := di;
    if key == BACKSPACE {
      if di <= CMDLINE { return; }
      Rubbed(m.mem, line, di);
      di' := di - 1;
      m.mem := m.mem[di' := 0];
    } else if 0x20 <= key <= 0x7E && di < CMDLINE + CMDLINE_LIMIT {
      Typed(m.mem, line, di, key);
      m.mem := m.mem[di := key];
      di' := di + 1;
      m.mem := m.mem[di' := 0];
    } else {
      return;
    }
    ghost var before := m.mem;
    m.Interrupt();  // the echo
    AtEndFrame(before, m.mem, Edit(line, key), di');
  }

  /** The scan to the end of the line that is already there. */
  method FindEnd(mem: Memory, ghost line: seq<byte>) returns (di: nat)
    requires AtEnd(mem, line, CMDLINE + |line|)
    ensures di == CMDLINE + |line|
  {
    di := CMDLINE;
    var cx := CMDLINE_LIMIT + 1;
    while cx != 0
      invariant CMDLINE <= di <= CMDLINE + |line|
      invariant cx == CMDLINE_LIMIT + 1 - (di - CMDLINE)
      decreases cx
    {
      cx, di := cx - 1, di + 1;
      if mem[di - 1] == 0 { break; }
    }
    di := di - 1;
  }

  /** Keys, up to the first Enter; `waiting` says none ever came. */
  method EditLine(m: Machine, ghost line: seq<byte>) returns (waiting: bool)
    requires AtEnd(m.mem, line, CMDLINE + |line|)
    modifies m`mem, m`flat, m`calls
    ensures waiting == (ENTER !in m.bios.keys)
    ensures AtEnd(m.mem, Edited(line, m.bios.keys), CMDLINE + |Edited(line, m.bios.keys)|)
    ensures KeepsBut(old(m.mem), m.mem, CMDLINE, CMDLINE + CMDLINE_LIMIT + 1)
  {
    var di := FindEnd(m.mem, line);
    var keys := m.bios.keys;
    var taken := 0;
    ghost var now := line;
    while taken < |keys| && keys[taken] != ENTER
      invariant 0 <= taken <= |keys| && ENTER !in keys[..taken]
      invariant AtEnd(m.mem, now, di)
      invariant Edited(now, keys[taken..]) == Edited(line, keys)
      invariant KeepsBut(old(m.mem), m.mem, CMDLINE, CMDLINE + CMDLINE_LIMIT + 1)
    {
      di := TakeKey(m, di, keys[taken], now);
      now := Edit(now, keys[taken]);
      assert keys[taken..][1..] == keys[taken + 1..];
      taken := taken + 1;
    }
    waiting := taken == |keys|;
    assert keys[..taken] + keys[taken..] == keys;
  }

  /**
   The pause at the boot line. Left alone it changes nothing; interrupted, the
   buffer ends up holding what a list editor makes of the keys before Enter.
   `waiting` says no Enter ever came.
   */
  method AskCmdline(m: Machine) returns (waiting: bool)
    requires 0 in m.mem[CMDLINE..CMDLINE + CMDLINE_LIMIT + 1]
    modifies m`mem, m`flat, m`calls
    ensures waiting == (m.bios.interrupted && ENTER !in m.bios.keys)
    ensures Line(m.mem) == FinalLine(m.bios, old(m.mem))
    ensures AtEnd(m.mem, Line(m.mem), CMDLINE + |Line(m.mem)|)
    ensures KeepsBut(old(m.mem), m.mem, CMDLINE, CMDLINE + CMDLINE_LIMIT + 1)
  {
    LineIsAtEnd(m.mem);
    ghost var line := Line(m.mem);
    m.Interrupt();
    waiting := false;
    if m.bios.interrupted {
      waiting := EditLine(m, line);
      line := Edited(line, m.bios.keys);
    }
    AtEndIsLine(m.mem, line, CMDLINE + |line|);
  }

  // ------------------------------------------------------------------
  // "nofb"
  // ------------------------------------------------------------------

  /** "nofb" stands at position `p` of the line. */
  predicate NofbAt(line: seq<byte>, p: nat) {
    && p + 4 <= |line|
    && line[p] == NOFB[0] && line[p + 1] == NOFB[1] && line[p + 2] == NOFB[2] && line[p + 3] == NOFB[3]
  }

  ghost predicate SaysNofb(line: seq<byte>) {
    exists p: nat :: NofbAt(line, p)
  }

  /** Some position holds "nofb" exactly when the line has it as a substring. */
  lemma SaysNofbIsSubstring(line: seq<byte>)
    ensures SaysNofb(line) <==> exists a: seq<byte>, b: seq<byte> :: line == a + NOFB + b
  {
    if SaysNofb(line) {
      var p: nat :| NofbAt(line, p);
      assert line == line[..p] + NOFB + line[p + 4..];
    }
    if a: seq<byte>, b: seq<byte> :| line == a + NOFB + b {
      assert NofbAt(line, |a|);
    }
  }

  /** The scan, which has only the buffer to read, declines exactly on a line with "nofb" in it. */
  method ScanNofb(m: Machine) returns (declined: bool)
    requires AtEnd(m.mem, Line(m.mem), CMDLINE + |Line(m.mem)|)
    ensures declined <==> SaysNofb(Line(m.mem))
  {
    BufferHoldsLine(m.mem, Line(m.mem));
    declined := ScanBuffer(Buffer(m.mem), Line(m.mem));
  }

  method ScanBuffer(buf: seq<byte>, ghost line: seq<byte>) returns (declined: bool)
    requires |buf| == CMDLINE_LIMIT + 1 && Terminated(buf, line)
    ensures declined <==> SaysNofb(line)
  {
    var si: nat := 0;
    while buf[si] != 0
      invariant si <= |line|
      invariant forall p: nat :: p < si ==> !NofbAt(line, p)
      decreases |line| - si
    {
      var hit := MatchesAt(buf, si, line);
      if hit { return true; }
      si := si + 1;
    }
    declined := false;
  }

  method MatchesAt(buf: seq<byte>, si: nat, ghost line: seq<byte>) returns (hit: bool)
    requires |buf| == CMDLINE_LIMIT + 1 && Terminated(buf, line) && si < |line|
    ensures hit <==> NofbAt(line, si)
  {
    if si > CMDLINE_LIMIT - 3 { return false; }
    hit := buf[si] == NOFB[0] && buf[si + 1] == NOFB[1] && buf[si + 2] == NOFB[2] && buf[si + 3] == NOFB[3];
    assert buf[|line|] == 0;
  }

  lemma BufferHoldsLine(mem: Memory, line: seq<byte>)
    requires AtEnd(mem, line, CMDLINE + |line|)
    ensures Terminated(Buffer(mem), line)
  {
  }
}
