/**
 The graphics mode: how large it may be, which of the listed modes is taken,
 and what is recorded of it.
 */
module BootVideo {
  import opened ByteFields
  import opened BootMemory
  import opened BootMachine
  import opened BootTables
  import opened BootLine

  const FALLBACK_WIDTH: nat := 800
  const FALLBACK_HEIGHT: nat := 480

  // ------------------------------------------------------------------
  // The ceiling
  // ------------------------------------------------------------------

  /** Twelve bits split between a low byte and the upper nibble of another. */
  function Twelve(low: byte, high: byte): (size: nat)
    ensures size < 0x1000
  {
    low as int + (high as int / 16) * 0x100
  }

  /** The two bytes of a size, with whatever the blanking has in the other nibble. */
  function Split(size: nat, blanking: nat): (r: (byte, byte))
    requires size < 0x1000 && blanking < 16
  {
    (size % 0x100, (size / 0x100) * 16 + blanking)
  }

  lemma TwelveInvertsSplit(size: nat, blanking: nat)
    requires size < 0x1000 && blanking < 16
    ensures Twelve(Split(size, blanking).0, Split(size, blanking).1) == size
  {
    assert ((size / 0x100) * 16 + blanking) / 16 == size / 0x100;
  }

  /** The start of an EDID block, as far as the loader looks at it. */
  predicate LooksLikeEdid(e: seq<byte>)
    requires |e| == 128
  {
    e[0] == 0x00 && e[1] == 0xFF && e[7] == 0x00
  }

  /** The preferred timing's active pixels. */
  function Panel(e: seq<byte>): (nat, nat)
    requires |e| == 128
  {
    (Twelve(e[56], e[58]), Twelve(e[59], e[61]))
  }

  /** The panel's own size, else the patched pair, else the fallback. */
  function Ceiling(b: Bios, mem: Memory): (nat, nat)
  {
    var panel := Panel(b.edid.block);
    if b.edid.ok && LooksLikeEdid(b.edid.block) && panel.0 != 0 && panel.1 != 0 then panel
    else if Word(mem, WANT_WIDTH) != 0 && Word(mem, WANT_HEIGHT) != 0 then
      (Word(mem, WANT_WIDTH), Word(mem, WANT_HEIGHT))
    else (FALLBACK_WIDTH, FALLBACK_HEIGHT)
  }

  /** A display that identifies itself is believed, whatever else is patched in. */
  lemma PanelDecides(b: Bios, mem: Memory, width: nat, height: nat, blankX: nat, blankY: nat)
    requires 0 < width < 0x1000 && 0 < height < 0x1000 && blankX < 16 && blankY < 16
    requires b.edid.ok && LooksLikeEdid(b.edid.block)
    requires (b.edid.block[56], b.edid.block[58]) == Split(width, blankX)
    requires (b.edid.block[59], b.edid.block[61]) == Split(height, blankY)
    ensures Ceiling(b, mem) == (width, height)
  {
    TwelveInvertsSplit(width, blankX);
    TwelveInvertsSplit(height, blankY);
  }

  /** What the panel's block must hold to be believed: the start of an EDID, and a size in each direction. */
  predicate Believed(e: seq<byte>)
    requires |e| == 128
  {
    e[0] == 0x00 && e[1] == 0xFF && e[7] == 0x00 && (e[56] > 0 || e[58] >= 0x10) && (e[59] > 0 || e[61] >= 0x10)
  }

  /** The ceiling by the bytes it comes from: the panel's timing, else the patched pair if both are there, else 800 by 480. */
  lemma CeilingByBytes(b: Bios, mem: Memory)
    ensures b.edid.ok && Believed(b.edid.block) ==>
      var e := b.edid.block; Ceiling(b, mem) == (e[56] as int + e[58] as int / 16 * 256, e[59] as int + e[61] as int / 16 * 256)
    ensures !(b.edid.ok && Believed(b.edid.block)) && Word(mem, WANT_WIDTH) > 0 && Word(mem, WANT_HEIGHT) > 0 ==>
      Ceiling(b, mem) == (Word(mem, WANT_WIDTH), Word(mem, WANT_HEIGHT))
    ensures !(b.edid.ok && Believed(b.edid.block)) && (Word(mem, WANT_WIDTH) == 0 || Word(mem, WANT_HEIGHT) == 0) ==>
      Ceiling(b, mem) == (800, 480)
  {
  }

  method SettleCeiling(m: Machine)
    modifies m`mem, m`flat, m`calls, m`ceilingWidth, m`ceilingHeight
    ensures (m.ceilingWidth, m.ceilingHeight) == Ceiling(m.bios, old(m.mem))
    ensures 0 < m.ceilingWidth < 0x1_0000 && 0 < m.ceilingHeight < 0x1_0000
    ensures KeepsBut(old(m.mem), m.mem, EDID_INFO, EDID_INFO + 128) && m.calls >= old(m.calls)
  {
    m.ceilingWidth, m.ceilingHeight := FALLBACK_WIDTH, FALLBACK_HEIGHT;
    var ax, bx := Word(m.mem, WANT_WIDTH), Word(m.mem, WANT_HEIGHT);
    if ax != 0 && bx != 0 {
      m.ceilingWidth, m.ceilingHeight := ax, bx;
    }
    m.InterruptInto(EDID_INFO, m.bios.edid.block);
    if !m.bios.edid.ok { return; }
    if m.mem[EDID_INFO] != 0x00 || m.mem[EDID_INFO + 1] != 0xFF || m.mem[EDID_INFO + 7] != 0x00 { return; }
    var width := m.mem[EDID_INFO + 56] as int + (m.mem[EDID_INFO + 58] as int / 16) * 0x100;
    if width == 0 { return; }
    var height := m.mem[EDID_INFO + 59] as int + (m.mem[EDID_INFO + 61] as int / 16) * 0x100;
    if height == 0 { return; }
    m.ceilingWidth, m.ceilingHeight := width, height;
  }

  // ------------------------------------------------------------------
  // The mode
  // ------------------------------------------------------------------

  function Width(info: seq<byte>): nat requires |info| == 256 { Word(info, 18) }
  function Height(info: seq<byte>): nat requires |info| == 256 { Word(info, 20) }

  /** The area the search scores by, as the 32-bit product it is computed in. */
  function Area(info: seq<byte>): (a: nat)
    requires |info| == 256
    ensures a == Width(info) * Height(info)
  {
    ProductFits(Width(info), Height(info));
    Width(info) * Height(info) % ADDRESSES
  }

  lemma ProductFits(w: nat, h: nat)
    requires w < 0x1_0000 && h < 0x1_0000
    ensures w * h < ADDRESSES
  {
    ProductGrows(w, 0xFFFF, h);
  }

  lemma {:induction false} ProductGrows(w: nat, limit: nat, h: nat)
    requires w <= limit
    ensures w * h <= limit * h
    decreases h
  {
    if h > 0 {
      ProductGrows(w, limit, h - 1);
      assert w * h == w * (h - 1) + w && limit * h == limit * (h - 1) + limit;
    }
  }

  /** Supported, graphical, linear, 32 bits a pixel, and no larger than the ceiling. */
  predicate Eligible(a: VideoAnswer, cw: nat, ch: nat)
    requires |a.block| == 256
  {
    var attributes := Word(a.block, 0);
    && a.ok
    && attributes % 2 == 1
    && (attributes / 0x10) % 2 == 1
    && (attributes / 0x80) % 2 == 1
    && a.block[25] == 32
    && Width(a.block) <= cw && Height(a.block) <= ch
  }

  /** The same by the block's own bytes: bits 0, 4 and 7 of its attributes, its depth, its width and its height. */
  lemma EligibleByBytes(a: VideoAnswer, cw: nat, ch: nat)
    requires |a.block| == 256
    ensures Eligible(a, cw, ch) <==>
      && a.ok && a.block[0] % 2 == 1 && a.block[0] / 16 % 2 == 1 && a.block[0] >= 128 && a.block[25] == 32
      && a.block[18] as int + 256 * a.block[19] as int <= cw && a.block[20] as int + 256 * a.block[21] as int <= ch
  {
    LowBits(a.block[0] as int, a.block[1] as int, Word(a.block, 0));
  }

  /** The lower byte of a word has its lower eight bits. */
  lemma LowBits(low: nat, high: nat, word: nat)
    requires low < 0x100 && word == low + 0x100 * high
    ensures word % 2 == low % 2 && (word / 0x10) % 2 == low / 0x10 % 2 && (word / 0x80) % 2 == low / 0x80
  {
    EvenAdds(low, 0x80 * high);
    Quotient(word, 0x10, low / 0x10 + 0x10 * high, low % 0x10);
    EvenAdds(low / 0x10, 8 * high);
    Quotient(word, 0x80, low / 0x80 + 2 * high, low % 0x80);
    EvenAdds(low / 0x80, high);
  }

  lemma EvenAdds(n: nat, k: nat)
    ensures (n + 2 * k) % 2 == n % 2
  {
  }

  lemma Quotient(n: nat, d: nat, q: nat, r: nat)
    requires 0 <= r < d && n == d * q + r
    ensures n / d == q
  {
    QuotientBounds(d, n / d - q);
  }

  lemma QuotientBounds(d: int, more: int)
    requires d > 0
    ensures more > 0 ==> d * more >= d
    ensures more < 0 ==> d * more <= -d
  {
  }

  /** The area of the mode taken so far; zero for none. */
  function AreaOf(b: Bios, i: int): nat
    requires i >= -1
  {
    if i < 0 then 0 else Area(b.modeInfo(i).block)
  }

  /** The index taken among the first `n` modes listed; -1 for none. */
  function Choice(b: Bios, n: nat, cw: nat, ch: nat): (i: int)
    ensures -1 <= i < n
  {
    if n == 0 then -1
    else
      var i := Choice(b, n - 1, cw, ch);
      var a := b.modeInfo(n - 1);
      if Eligible(a, cw, ch) && Area(a.block) > AreaOf(b, i) then n - 1 else i
  }

  /** The choice is eligible, no eligible mode is larger, and none before it is as large. */
  lemma {:induction false} ChoiceIsOptimal(b: Bios, n: nat, cw: nat, ch: nat)
    ensures
      var i := Choice(b, n, cw, ch);
      && (i >= 0 ==> Eligible(b.modeInfo(i), cw, ch) && AreaOf(b, i) > 0)
      && (forall j :: 0 <= j < n && Eligible(b.modeInfo(j), cw, ch) ==>
            AreaOf(b, j) <= AreaOf(b, i))
      && (forall j :: 0 <= j < i && Eligible(b.modeInfo(j), cw, ch) ==>
            AreaOf(b, j) < AreaOf(b, i))
  {
    if n > 0 { ChoiceIsOptimal(b, n - 1, cw, ch); }
  }

  datatype Framebuffer = Framebuffer(addr: nat, width: nat, height: nat, pitch: nat, bpp: nat)

  const NO_FRAMEBUFFER := Framebuffer(0, 0, 0, 0, 0)

  function Described(info: seq<byte>): Framebuffer
    requires |info| == 256
  {
    Framebuffer(Dword(info, 40), Width(info), Height(info), Word(info, 16), info[25])
  }

  /** What BootInfo should say of the screen, for a line that does not decline it. */
  function Screen(b: Bios, cw: nat, ch: nat): Framebuffer
  {
    var n := |b.modes|;
    var i := Choice(b, n, cw, ch);
    if b.controller.ok && i >= 0 && b.modes[i] != 0 && b.modeInfo(n).ok && b.modeSet
    then Described(b.modeInfo(n).block)
    else NO_FRAMEBUFFER
  }

  /** Listed mode `i` will do, is larger than none, and no mode listed before it that will do is as large. */
  ghost predicate Best(b: Bios, cw: nat, ch: nat, i: nat) {
    && i < |b.modes| && Eligible(b.modeInfo(i), cw, ch) && AreaOf(b, i) > 0
    && forall j: nat {:trigger b.modeInfo(j)} :: j < |b.modes| && Eligible(b.modeInfo(j), cw, ch) ==>
         AreaOf(b, j) <= AreaOf(b, i) && (j < i ==> AreaOf(b, j) < AreaOf(b, i))
  }

  /** The choice is the best mode, and there is none exactly if none will do. */
  lemma ChoiceIsBest(b: Bios, cw: nat, ch: nat)
    ensures forall i: nat :: Best(b, cw, ch, i) <==> Choice(b, |b.modes|, cw, ch) == i
  {
    ChoiceIsOptimal(b, |b.modes|, cw, ch);
    var c := Choice(b, |b.modes|, cw, ch);
    if c >= 0 { assert Best(b, cw, ch, c); }
    forall i: nat | Best(b, cw, ch, i)
      ensures c == i
    {
      assert AreaOf(b, i) <= AreaOf(b, c);
    }
  }

  /** The controller answers, there is a best mode with a number, it can be read again, and the BIOS sets it. */
  ghost predicate GraphicsSet(b: Bios, cw: nat, ch: nat) {
    b.controller.ok && (exists i: nat :: Best(b, cw, ch, i) && b.modes[i] > 0) && b.modeInfo(|b.modes|).ok && b.modeSet
  }

  /** BootInfo says of the screen what this block of a mode says: where it is, how wide, how high, how far from row to row, how deep. */
  ghost predicate ScreenFrom(mem: Memory, block: seq<byte>)
    requires |block| == 256
  {
    && Dword(mem, BI_FB_ADDR) == Dword(block, 40) && Word(mem, BI_FB_WIDTH) == Word(block, 18)
    && Word(mem, BI_FB_HEIGHT) == Word(block, 20) && Word(mem, BI_FB_PITCH) == Word(block, 16) && mem[BI_FB_BPP] == block[25]
  }

  ghost predicate NoScreen(mem: Memory) {
    && Dword(mem, BI_FB_ADDR) == 0 && Word(mem, BI_FB_WIDTH) == 0 && Word(mem, BI_FB_HEIGHT) == 0
    && Word(mem, BI_FB_PITCH) == 0 && mem[BI_FB_BPP] == 0
  }

  /** What the BIOS's answers alone make of the screen. */
  ghost predicate ScreenAnswered(b: Bios, cw: nat, ch: nat, mem: Memory) {
    true == if GraphicsSet(b, cw, ch) then ScreenFrom(mem, b.modeInfo(|b.modes|).block) else NoScreen(mem)
  }

  lemma ScreenByAnswers(b: Bios, cw: nat, ch: nat, mem: Memory)
    requires ScreenIs(mem, Screen(b, cw, ch))
    ensures ScreenAnswered(b, cw, ch, mem)
  {
    ChoiceIsBest(b, cw, ch);
    var c := Choice(b, |b.modes|, cw, ch);
    if c >= 0 { assert Best(b, cw, ch, c); }
  }

  /**
   A BIOS that answers for a mode the same way twice: the screen recorded is
   then the chosen mode's own, within the ceiling and 32 bits deep.
   */
  lemma ScreenIsTheChoice(b: Bios, cw: nat, ch: nat)
    requires
      var i := Choice(b, |b.modes|, cw, ch);
      i >= 0 ==> b.modeInfo(|b.modes|) == b.modeInfo(i)
    ensures
      var s, i := Screen(b, cw, ch), Choice(b, |b.modes|, cw, ch);
      s != NO_FRAMEBUFFER ==>
        && i >= 0 && s == Described(b.modeInfo(i).block)
        && 0 < s.width <= cw && 0 < s.height <= ch && s.bpp == 32
  {
    ChoiceIsOptimal(b, |b.modes|, cw, ch);
  }

  /** INT 10h AX=4F01 into the mode block. */
  method ReadMode(m: Machine, k: nat) returns (a: VideoAnswer)
    modifies m`mem, m`flat, m`calls
    ensures a == m.bios.modeInfo(k)
    ensures m.mem[VBE_MODE_INFO..VBE_MODE_INFO + 256] == a.block
    ensures KeepsBut(old(m.mem), m.mem, VBE_MODE_INFO, VBE_MODE_INFO + 256) && m.calls >= old(m.calls)
  {
    a := m.bios.modeInfo(k);
    m.InterruptInto(VBE_MODE_INFO, a.block);
  }

  lemma WordInBlock(mem: Memory, block: seq<byte>, off: nat)
    requires |block| == 256 && off + 2 <= 256
    requires mem[VBE_MODE_INFO..VBE_MODE_INFO + 256] == block
    ensures Word(mem, VBE_MODE_INFO + off) == Word(block, off)
    ensures mem[VBE_MODE_INFO + off] == block[off]
  {
    assert block[off] == mem[VBE_MODE_INFO..VBE_MODE_INFO + 256][off];
    assert block[off + 1] == mem[VBE_MODE_INFO..VBE_MODE_INFO + 256][off + 1];
  }

  /** The tests on the block just read, and the score it gets if it passes; zero if not. */
  method ScoreMode(m: Machine, ghost a: VideoAnswer) returns (score: nat)
    requires |a.block| == 256 && a.ok
    requires m.mem[VBE_MODE_INFO..VBE_MODE_INFO + 256] == a.block
    ensures score == if Eligible(a, m.ceilingWidth, m.ceilingHeight) then Area(a.block) else 0
  {
    WordInBlock(m.mem, a.block, 0);
    WordInBlock(m.mem, a.block, 18);
    WordInBlock(m.mem, a.block, 20);
    WordInBlock(m.mem, a.block, 25);
    var attributes := Word(m.mem, VBE_MODE_INFO);
    if attributes % 2 == 0 { return 0; }
    if (attributes / 0x10) % 2 == 0 { return 0; }
    if (attributes / 0x80) % 2 == 0 { return 0; }
    if m.mem[VBE_MODE_INFO + 25] != 32 { return 0; }
    var width, height := Word(m.mem, VBE_MODE_INFO + 18), Word(m.mem, VBE_MODE_INFO + 20);
    if width > m.ceilingWidth || height > m.ceilingHeight { return 0; }
    score := width * height % ADDRESSES;
  }

  /** The walk over the mode list. `best` is zero when nothing listed will do. */
  method FindMode(m: Machine) returns (best: nat, ghost index: int)
    modifies m`mem, m`flat, m`calls
    ensures index == Choice(m.bios, |m.bios.modes|, m.ceilingWidth, m.ceilingHeight)
    ensures best == if index < 0 then 0 else m.bios.modes[index]
    ensures KeepsBut(old(m.mem), m.mem, VBE_MODE_INFO, VBE_MODE_INFO + 256) && m.calls >= old(m.calls)
  {
    var modes := m.bios.modes;
    var ebx: nat := 0;
    best, index := 0, -1;
    for k := 0 to |modes|
      invariant index == Choice(m.bios, k, m.ceilingWidth, m.ceilingHeight)
      invariant ebx == AreaOf(m.bios, index)
      invariant best == if index < 0 then 0 else m.bios.modes[index]
      invariant KeepsBut(old(m.mem), m.mem, VBE_MODE_INFO, VBE_MODE_INFO + 256) && m.calls >= old(m.calls)
    {
      var a := ReadMode(m, k);
      if a.ok {
        var score := ScoreMode(m, a);
        if score > ebx {
          ebx, best, index := score, modes[k], k;
        }
      }
    }
  }

  ghost predicate ScreenIs(mem: Memory, s: Framebuffer) {
    s == Framebuffer(Dword(mem, BI_FB_ADDR), Word(mem, BI_FB_WIDTH), Word(mem, BI_FB_HEIGHT),
                     Word(mem, BI_FB_PITCH), mem[BI_FB_BPP])
  }

  method RecordScreen(m: Machine, ghost block: seq<byte>)
    requires |block| == 256 && m.mem[VBE_MODE_INFO..VBE_MODE_INFO + 256] == block
    modifies m`mem
    ensures ScreenIs(m.mem, Described(block))
    ensures forall i :: 0 <= i < ADDRESSES && !(BI_FB_ADDR <= i <= BI_FB_BPP) ==> m.mem[i] == old(m.mem)[i]
  {
    WordInBlock(m.mem, block, 40);
    WordInBlock(m.mem, block, 42);
    WordInBlock(m.mem, block, 18);
    WordInBlock(m.mem, block, 20);
    WordInBlock(m.mem, block, 16);
    WordInBlock(m.mem, block, 25);
    var mem := m.mem;
    m.mem := Put(m.mem, BI_FB_ADDR, mem[VBE_MODE_INFO + 40..VBE_MODE_INFO + 44]);
    m.mem := Put(m.mem, BI_FB_WIDTH, mem[VBE_MODE_INFO + 18..VBE_MODE_INFO + 20]);
    m.mem := Put(m.mem, BI_FB_HEIGHT, mem[VBE_MODE_INFO + 20..VBE_MODE_INFO + 22]);
    m.mem := Put(m.mem, BI_FB_PITCH, mem[VBE_MODE_INFO + 16..VBE_MODE_INFO + 18]);
    m.mem := Put(m.mem, BI_FB_BPP, [mem[VBE_MODE_INFO + 25]]);
  }

  /** Only the scratch blocks, the screen's fields and the BIOS's own memory changed. */
  ghost predicate KeepsButScreen(m0: Memory, m1: Memory) {
    forall i :: 0 <= i < |m0| && !BiosOwned(i) && !InScreen(i) ==> m1[i] == m0[i]
  }

  predicate InScreen(i: nat) {
    VBE_INFO <= i < SCRATCH_END || BI_FB_ADDR <= i <= BI_FB_BPP
  }

  method VbeSetup(m: Machine)
    requires ScreenIs(m.mem, NO_FRAMEBUFFER)
    modifies m`mem, m`flat, m`calls, m`ceilingWidth, m`ceilingHeight
    ensures
      var c := Ceiling(m.bios, old(m.mem));
      ScreenIs(m.mem, Screen(m.bios, c.0, c.1)) && ScreenAnswered(m.bios, c.0, c.1, m.mem)
    ensures KeepsButScreen(old(m.mem), m.mem) && m.calls >= old(m.calls)
  {
    SetBestMode(m);
    ScreenByAnswers(m.bios, m.ceilingWidth, m.ceilingHeight, m.mem);
  }

  method SetBestMode(m: Machine)
    requires ScreenIs(m.mem, NO_FRAMEBUFFER)
    modifies m`mem, m`flat, m`calls, m`ceilingWidth, m`ceilingHeight
    ensures (m.ceilingWidth, m.ceilingHeight) == Ceiling(m.bios, old(m.mem))
    ensures ScreenIs(m.mem, Screen(m.bios, m.ceilingWidth, m.ceilingHeight))
    ensures KeepsButScreen(old(m.mem), m.mem) && m.calls >= old(m.calls)
  {
    SettleCeiling(m);
    m.InterruptInto(VBE_INFO, m.bios.controller.block);
    if !m.bios.controller.ok { return; }
    var dx, index := FindMode(m);
    if dx == 0 { return; }
    var a := ReadMode(m, |m.bios.modes|);
    if !a.ok { return; }
    m.Interrupt();  // set it, linear
    if !m.bios.modeSet { return; }
    assert m.mem[VBE_MODE_INFO..VBE_MODE_INFO + 256] == a.block;
    RecordScreen(m, a.block);
  }

  /** Graphics unless the line declines them. */
  method MaybeSetVideo(m: Machine)
    requires ScreenIs(m.mem, NO_FRAMEBUFFER)
    requires AtEnd(m.mem, Line(m.mem), CMDLINE + |Line(m.mem)|)
    modifies m`mem, m`flat, m`calls, m`ceilingWidth, m`ceilingHeight
    ensures
      var c := Ceiling(m.bios, old(m.mem));
      ScreenIs(m.mem, if SaysNofb(Line(old(m.mem))) then NO_FRAMEBUFFER
                      else Screen(m.bios, c.0, c.1))
    ensures
      var c := Ceiling(m.bios, old(m.mem));
      if SaysNofb(Line(old(m.mem))) then NoScreen(m.mem) else ScreenAnswered(m.bios, c.0, c.1, m.mem)
    ensures KeepsButScreen(old(m.mem), m.mem) && m.calls >= old(m.calls)
  {
    var declined := ScanNofb(m);
    if !declined { VbeSetup(m); }
  }
}
