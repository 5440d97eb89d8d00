/**
 The search for the ACPI root pointer: the first kilobyte of the EBDA, then the
 two 64 KiB halves of the BIOS ROM, a paragraph at a time through a 16-bit
 offset.
 */
module BootRsdp {
  import opened ByteFields
  import opened BootMemory
  import opened BootMachine
  import opened BootTables

  const RSDP_SIG: seq<byte> := [0x52, 0x53, 0x44, 0x20, 0x50, 0x54, 0x52, 0x20]
  const WINDOW: nat := 0x1_0000
  const EBDA_PARAGRAPHS: nat := 64
  const ROM_PARAGRAPHS: nat := 4096

  /** The byte at segment `es`, offset `off`, whose offset wraps in 16 bits. */
  function SegByte(mem: Memory, es: nat, off: nat): byte
    requires es < WINDOW
  {
    mem[16 * es + off % WINDOW]
  }

  /** An 8-bit addition. */
  function Add8(a: byte, b: byte): byte {
    if a as int + b as int < 256 then a as int + b as int else a as int + b as int - 256
  }

  /** The 8-bit sum of `n` bytes from a segment and offset. */
  function SegSum(mem: Memory, es: nat, off: nat, n: nat): byte
    requires es < WINDOW
  {
    if n == 0 then 0 else Add8(SegSum(mem, es, off, n - 1), SegByte(mem, es, off + n - 1))
  }

  predicate SegHit(mem: Memory, es: nat, off: nat)
    requires es < WINDOW
  {
    (forall j | 0 <= j < 8 :: SegByte(mem, es, off + j) == RSDP_SIG[j]) && SegSum(mem, es, off, 20) == 0
  }

  /** The first paragraph from `k` that holds the structure, or `n` when none does. */
  function Scan(mem: Memory, es: nat, k: nat, n: nat): nat
    requires es < WINDOW
    decreases n - k
  {
    if k >= n then n else if SegHit(mem, es, 16 * k) then k else Scan(mem, es, k + 1, n)
  }

  lemma {:induction false} ScanIsFirst(mem: Memory, es: nat, k: nat, n: nat)
    requires es < WINDOW && k <= n
    ensures k <= Scan(mem, es, k, n) <= n
    ensures Scan(mem, es, k, n) < n ==> SegHit(mem, es, 16 * Scan(mem, es, k, n))
    ensures forall j :: k <= j < Scan(mem, es, k, n) ==> !SegHit(mem, es, 16 * j)
    decreases n - k
  {
    if k < n && !SegHit(mem, es, 16 * k) { ScanIsFirst(mem, es, k + 1, n); }
  }

  /** The address the three windows give, in the order they are scanned; zero for none. */
  function Rsdp(mem: Memory): nat
  {
    var ebda := Word(mem, EBDA_POINTER);
    if ebda != 0 && Scanned(mem, ebda, EBDA_PARAGRAPHS) != 0 then Scanned(mem, ebda, EBDA_PARAGRAPHS)
    else if Scanned(mem, 0xE000, ROM_PARAGRAPHS) != 0 then Scanned(mem, 0xE000, ROM_PARAGRAPHS)
    else Scanned(mem, 0xF000, ROM_PARAGRAPHS)
  }

  /** The address a window gives, or zero. */
  function Scanned(mem: Memory, es: nat, n: nat): nat
    requires es < WINDOW
  {
    var k := Scan(mem, es, 0, n);
    if k < n then 16 * (es + k) else 0
  }

  // ------------------------------------------------------------------
  // The loops
  // ------------------------------------------------------------------

  method CompareSignature(mem: Memory, es: nat, di: nat) returns (same: bool)
    requires es < WINDOW
    ensures same == forall j | 0 <= j < 8 :: SegByte(mem, es, di + j) == RSDP_SIG[j]
  {
    var si := 0;
    while si < 8
      invariant 0 <= si <= 8
      invariant forall j | 0 <= j < si :: SegByte(mem, es, di + j) == RSDP_SIG[j]
    {
      if SegByte(mem, es, di + si) != RSDP_SIG[si] { return false; }
      si := si + 1;
    }
    same := true;
  }

  method Checksum(mem: Memory, es: nat, di: nat) returns (al: byte)
    requires es < WINDOW
    ensures al == SegSum(mem, es, di, 20)
  {
    al := 0;
    for k := 0 to 20
      invariant al == SegSum(mem, es, di, k)
    {
      al := Add8(al, SegByte(mem, es, di + k));
    }
  }

  method TestParagraph(mem: Memory, es: nat, di: nat) returns (hit: bool)
    requires es < WINDOW
    ensures hit == SegHit(mem, es, di)
  {
    hit := CompareSignature(mem, es, di);
    if hit {
      var al := Checksum(mem, es, di);
      hit := al == 0;
    }
  }

  method ScanRsdp(mem: Memory, es: nat, cx: nat) returns (carry: bool, di: nat)
    requires es < WINDOW && 0 < cx <= ROM_PARAGRAPHS
    ensures carry == (Scan(mem, es, 0, cx) == cx)
    ensures !carry ==> di == 16 * Scan(mem, es, 0, cx) < WINDOW
  {
    di := 0;
    var left := cx;
    while left != 0
      invariant 0 <= left <= cx && di == 16 * (cx - left)
      invariant Scan(mem, es, 0, cx) == Scan(mem, es, cx - left, cx)
      decreases left
    {
      var hit := TestParagraph(mem, es, di);
      if hit { return false, di; }
      di, left := di + 16, left - 1;
    }
    carry := true;
  }

  method SearchRsdp(mem: Memory) returns (at: nat)
    ensures at == Rsdp(mem) < ADDRESSES
  {
    var es := Word(mem, EBDA_POINTER);
    if es != 0 {
      var carry, di := ScanRsdp(mem, es, EBDA_PARAGRAPHS);
      ScanIsFirst(mem, es, 0, EBDA_PARAGRAPHS);
      if !carry { return 16 * es + di; }
    }
    ScanIsFirst(mem, 0xE000, 0, ROM_PARAGRAPHS);
    var carry, di := ScanRsdp(mem, 0xE000, ROM_PARAGRAPHS);
    if !carry { return 16 * 0xE000 + di; }
    ScanIsFirst(mem, 0xF000, 0, ROM_PARAGRAPHS);
    carry, di := ScanRsdp(mem, 0xF000, ROM_PARAGRAPHS);
    if !carry { return 16 * 0xF000 + di; }
    at := 0;
  }

  /** BootInfo gets the first structure in scan order, and keeps its zero when there is none. */
  method FindRsdp(m: Machine)
    requires Dword(m.mem, BI_RSDP) == 0
    modifies m`mem
    ensures Dword(m.mem, BI_RSDP) == Rsdp(old(m.mem))
    ensures forall i :: 0 <= i < ADDRESSES && !(BI_RSDP <= i < BI_RSDP + 4) ==> m.mem[i] == old(m.mem)[i]
  {
    var at := SearchRsdp(m.mem);
    if at != 0 {
      var bytes := Dword4(at);
      m.mem := Put(m.mem, BI_RSDP, bytes);
      assert Dword(m.mem, BI_RSDP) == Dword(bytes, 0);
    }
  }

  // ------------------------------------------------------------------
  // Against the specification, which knows no segments
  // ------------------------------------------------------------------

  function Sum(mem: Memory, at: nat, n: nat): byte
    requires at + n <= |mem|
  {
    if n == 0 then 0 else Add8(Sum(mem, at, n - 1), mem[at + n - 1])
  }

  /** A root pointer structure, as ACPI defines it: the signature and a zero 20-byte sum. */
  predicate IsRsdp(mem: Memory, at: nat)
    requires at + 20 <= |mem|
  {
    mem[at..at + 8] == RSDP_SIG && Sum(mem, at, 20) == 0
  }

  lemma {:induction false} SumsAgree(mem: Memory, es: nat, off: nat, n: nat)
    requires es < WINDOW && off + n <= WINDOW
    ensures SegSum(mem, es, off, n) == Sum(mem, 16 * es + off, n)
  {
    if n > 0 { SumsAgree(mem, es, off, n - 1); }
  }

  lemma SignaturesAgree(mem: Memory, es: nat, off: nat)
    requires es < WINDOW && off + 8 <= WINDOW
    ensures (forall j | 0 <= j < 8 :: SegByte(mem, es, off + j) == RSDP_SIG[j])
            <==> mem[16 * es + off..16 * es + off + 8] == RSDP_SIG
  {
    var at := 16 * es + off;
    var s := mem[at..at + 8];
    forall j | 0 <= j < 8 ensures SegByte(mem, es, off + j) == s[j] {
    }
    if forall j | 0 <= j < 8 :: SegByte(mem, es, off + j) == RSDP_SIG[j] {
      assert s == RSDP_SIG;
    }
  }

  /** Every paragraph but the last of a window is judged as the specification judges it. */
  lemma HitIsRsdp(mem: Memory, es: nat, k: nat)
    requires es < WINDOW && k < ROM_PARAGRAPHS - 1
    ensures SegHit(mem, es, 16 * k) <==> IsRsdp(mem, 16 * (es + k))
  {
    SumsAgree(mem, es, 16 * k, 20);
    SignaturesAgree(mem, es, 16 * k);
  }

  lemma {:induction false} SumSplits(mem: Memory, at: nat, n: nat, k: nat)
    requires at + n + k <= |mem|
    ensures Sum(mem, at, n + k) == Add8(Sum(mem, at, n), Sum(mem, at + n, k))
  {
    if k > 0 { SumSplits(mem, at, n, k - 1); }
  }

  lemma {:induction false} SegSumWraps(mem: Memory, es: nat, k: nat)
    requires es < WINDOW && k <= 4
    ensures SegSum(mem, es, WINDOW - 16, 16 + k) ==
            Add8(Sum(mem, 16 * es + WINDOW - 16, 16), Sum(mem, 16 * es, k))
  {
    if k > 0 {
      SegSumWraps(mem, es, k - 1);
      assert (WINDOW - 16 + (16 + k) - 1) % WINDOW == k - 1;
    } else {
      SumsAgree(mem, es, WINDOW - 16, 16);
    }
  }

  /**
   The last paragraph of a window, where the offset wraps: the code and the
   specification agree on a structure there exactly when the window's first
   four bytes sum to what the four bytes past its end sum to.
   */
  lemma LastParagraph(mem: Memory, es: nat)
    requires es < WINDOW
    ensures
      var wraps := Sum(mem, 16 * es, 4) == Sum(mem, 16 * es + WINDOW, 4);
      && (IsRsdp(mem, 16 * es + WINDOW - 16) ==> (SegHit(mem, es, WINDOW - 16) <==> wraps))
      && (SegHit(mem, es, WINDOW - 16) ==> (IsRsdp(mem, 16 * es + WINDOW - 16) <==> wraps))
  {
    SignaturesAgree(mem, es, WINDOW - 16);
    SegSumWraps(mem, es, 4);
    SumSplits(mem, 16 * es + WINDOW - 16, 16, 4);
  }

  // ------------------------------------------------------------------
  // The whole search against the specification
  // ------------------------------------------------------------------

  /** The `i`th paragraph from `at` holds the structure. */
  predicate Structure(mem: Memory, at: nat, i: nat) {
    at + 16 * i + 20 <= |mem| && IsRsdp(mem, at + 16 * i)
  }

  /** The first of `n` paragraphs from `at` that holds the structure, or zero. */
  function First(mem: Memory, at: nat, n: nat): nat
    decreases n
  {
    if n == 0 then 0 else if Structure(mem, at, 0) then at else First(mem, at + 16, n - 1)
  }

  /** None of the first `i` paragraphs from `at` holds it. */
  ghost predicate NoneBefore(mem: Memory, at: nat, i: nat) {
    forall j: nat :: j < i ==> !Structure(mem, at, j)
  }

  lemma NoneOnward(mem: Memory, at: nat, i: nat)
    requires 0 < i
    ensures NoneBefore(mem, at, i) <==> !Structure(mem, at, 0) && NoneBefore(mem, at + 16, i - 1)
  {
    var next := at + 16;
    assert forall j: nat :: Structure(mem, next, j) == Structure(mem, at, j + 1);
    if !Structure(mem, at, 0) && NoneBefore(mem, next, i - 1) {
      forall j: nat | j < i
        ensures !Structure(mem, at, j)
      {
        if j > 0 { assert !Structure(mem, next, j - 1); }
      }
    }
  }

  /** It is zero if and only if there is none, and a place if and only if that is the first. */
  lemma {:induction false} FirstPlace(mem: Memory, at: nat, n: nat, i: nat)
    requires 0 < at && i <= n
    ensures if i == n then First(mem, at, n) == 0 <==> NoneBefore(mem, at, n)
            else First(mem, at, n) == at + 16 * i <==> Structure(mem, at, i) && NoneBefore(mem, at, i)
    decreases n
  {
    if 0 < i {
      NoneOnward(mem, at, i);
      FirstPlace(mem, at + 16, n - 1, i - 1);
    } else if n > 0 {
      FirstSplits(mem, at + 16, n - 1, 0);
    }
  }

  lemma {:induction false} FirstSplits(mem: Memory, at: nat, n: nat, k: nat)
    requires 0 < at
    ensures First(mem, at, n + k) == if First(mem, at, n) != 0 then First(mem, at, n) else First(mem, at + 16 * n, k)
    ensures First(mem, at, n) == 0 || at <= First(mem, at, n) < at + 16 * n
    decreases n
  {
    if n > 0 { FirstSplits(mem, at + 16, n - 1, k); }
  }

  /** Short of its last paragraph, a window is scanned as the specification says. */
  lemma {:induction false} ScanIsSpecified(mem: Memory, es: nat, k: nat, n: nat)
    requires 0 < es < WINDOW && k <= n < ROM_PARAGRAPHS
    ensures k <= Scan(mem, es, k, n) <= n
    ensures First(mem, 16 * (es + k), n - k) == if Scan(mem, es, k, n) == n then 0 else 16 * (es + Scan(mem, es, k, n))
    decreases n - k
  {
    if k < n {
      HitIsRsdp(mem, es, k);
      if !SegHit(mem, es, 16 * k) { ScanIsSpecified(mem, es, k + 1, n); }
    }
  }

  lemma {:induction false} ScanSplits(mem: Memory, es: nat, k: nat, n: nat)
    requires es < WINDOW && k <= n
    ensures k <= Scan(mem, es, k, n) <= n
    ensures Scan(mem, es, k, n + 1) == if Scan(mem, es, k, n) < n then Scan(mem, es, k, n) else if SegHit(mem, es, 16 * n) then n else n + 1
    decreases n - k
  {
    if k < n && !SegHit(mem, es, 16 * k) { ScanSplits(mem, es, k + 1, n); }
  }

  /** What a ROM window gives. */
  lemma RomWindow(mem: Memory, es: nat)
    requires es == 0xE000 || es == 0xF000
    ensures var before := First(mem, 16 * es, ROM_PARAGRAPHS - 1);
      Scanned(mem, es, ROM_PARAGRAPHS) ==
        if before != 0 then before else if SegHit(mem, es, WINDOW - 16) then 16 * es + WINDOW - 16 else 0
  {
    WindowOf(mem, es, ROM_PARAGRAPHS - 1);
  }

  /** A window of one paragraph more than the specification vouches for. */
  lemma WindowOf(mem: Memory, es: nat, n: nat)
    requires 0 < es < WINDOW && n < ROM_PARAGRAPHS
    ensures var before := First(mem, 16 * es, n);
      Scanned(mem, es, n + 1) == if before != 0 then before else if SegHit(mem, es, 16 * n) then 16 * (es + n) else 0
  {
    ScanIsSpecified(mem, es, 0, n);
    ScanSplits(mem, es, 0, n);
  }

  /** In scan order, the first structure of the EBDA's kilobyte and of the 128 KiB of ROM: what ACPI asks for, and no segments in it. */
  function Located(mem: Memory): nat {
    if InEbda(mem) != 0 then InEbda(mem) else First(mem, 0xE_0000, 2 * ROM_PARAGRAPHS)
  }

  function InEbda(mem: Memory): nat {
    var ebda := Word(mem, EBDA_POINTER);
    if ebda != 0 then First(mem, 16 * ebda, EBDA_PARAGRAPHS) else 0
  }

  /** There is one in the EBDA, or in the first `n` paragraphs of the ROM. */
  predicate Sooner(mem: Memory, n: nat) {
    InEbda(mem) != 0 || First(mem, 0xE_0000, n) != 0
  }

  /** A signature in a window's last paragraph, whose sum comes to zero with just one of the window's own start and what follows the window. */
  predicate Doubtful(mem: Memory, es: nat)
    requires es < WINDOW
  {
    var at, end := 16 * es, 16 * es + WINDOW;
    && mem[end - 16..end - 8] == RSDP_SIG
    && (Add8(Sum(mem, end - 16, 16), Sum(mem, at, 4)) == 0) != (Add8(Sum(mem, end - 16, 16), Sum(mem, end, 4)) == 0)
  }

  lemma DoubtfulIsDisputed(mem: Memory, es: nat)
    requires es < WINDOW
    ensures Doubtful(mem, es) <==> SegHit(mem, es, WINDOW - 16) != IsRsdp(mem, 16 * es + WINDOW - 16)
  {
    SignaturesAgree(mem, es, WINDOW - 16);
    SegSumWraps(mem, es, 4);
    SumSplits(mem, 16 * es + WINDOW - 16, 16, 4);
  }

  /** The ROM up to its last paragraph, as the specification goes through it. */
  lemma RomPlaces(mem: Memory)
    ensures var a, b := First(mem, 0xE_0000, ROM_PARAGRAPHS - 1), First(mem, 0xF_0000, ROM_PARAGRAPHS - 1);
      First(mem, 0xE_0000, 2 * ROM_PARAGRAPHS - 1) == if a != 0 then a else if IsRsdp(mem, 0xE_FFF0) then 0xE_FFF0 else b
  {
    FirstSplits(mem, 0xE_0000, ROM_PARAGRAPHS - 1, ROM_PARAGRAPHS);
    FirstAlone(mem, 0xE_FFF0, ROM_PARAGRAPHS - 1);
  }

  /** And with its last. */
  lemma RomEnd(mem: Memory)
    ensures var before := First(mem, 0xE_0000, 2 * ROM_PARAGRAPHS - 1);
      First(mem, 0xE_0000, 2 * ROM_PARAGRAPHS) == if before != 0 then before else if IsRsdp(mem, 0xF_FFF0) then 0xF_FFF0 else 0
  {
    FirstSplits(mem, 0xE_0000, 2 * ROM_PARAGRAPHS - 1, 1);
    FirstAlone(mem, 0xF_FFF0, 0);
  }

  lemma FirstAlone(mem: Memory, at: nat, n: nat)
    requires at + 20 <= |mem|
    ensures First(mem, at, n + 1) == if IsRsdp(mem, at) then at else First(mem, at + 16, n)
  {
  }

  /** The first of five: in the EBDA, in one half of the ROM, in its last paragraph, in the other, and in its last. */
  function Pick(e: nat, a: nat, last1: bool, b: nat, last2: bool): nat {
    if e != 0 then e else if a != 0 then a else if last1 then 0xE_FFF0 else if b != 0 then b else if last2 then 0xF_FFF0 else 0
  }

  lemma EbdaWindow(mem: Memory, ebda: nat)
    requires 0 < ebda < WINDOW
    ensures Scanned(mem, ebda, EBDA_PARAGRAPHS) == First(mem, 16 * ebda, EBDA_PARAGRAPHS)
  {
    ScanIsSpecified(mem, ebda, 0, EBDA_PARAGRAPHS);
  }

  lemma LoaderPicks(mem: Memory)
    ensures Rsdp(mem) == Pick(InEbda(mem), First(mem, 0xE_0000, ROM_PARAGRAPHS - 1), SegHit(mem, 0xE000, WINDOW - 16),
                              First(mem, 0xF_0000, ROM_PARAGRAPHS - 1), SegHit(mem, 0xF000, WINDOW - 16))
  {
    var ebda := Word(mem, EBDA_POINTER);
    if ebda != 0 { EbdaWindow(mem, ebda); }
    RomWindow(mem, 0xE000);
    RomWindow(mem, 0xF000);
  }

  lemma SpecificationPicks(mem: Memory)
    ensures Located(mem) == Pick(InEbda(mem), First(mem, 0xE_0000, ROM_PARAGRAPHS - 1), IsRsdp(mem, 0xE_FFF0),
                                 First(mem, 0xF_0000, ROM_PARAGRAPHS - 1), IsRsdp(mem, 0xF_FFF0))
  {
    RomPlaces(mem);
    RomEnd(mem);
  }

  lemma SameOrNot(e: nat, a: nat, hit1: bool, is1: bool, b: nat, hit2: bool, is2: bool, sooner1: bool, sooner2: bool)
    requires b == 0 || 0xF_0000 <= b < 0xF_FFF0
    requires (sooner1 <==> e != 0 || a != 0) && (sooner2 <==> e != 0 || a != 0 || is1 || b != 0)
    ensures Pick(e, a, hit1, b, hit2) == Pick(e, a, is1, b, is2) <==> (sooner1 || hit1 == is1) && (sooner2 || hit2 == is2)
  {
  }

  lemma SoonerPlaces(mem: Memory)
    ensures Sooner(mem, ROM_PARAGRAPHS - 1) <==> InEbda(mem) != 0 || First(mem, 0xE_0000, ROM_PARAGRAPHS - 1) != 0
    ensures Sooner(mem, 2 * ROM_PARAGRAPHS - 1) <==>
      InEbda(mem) != 0 || First(mem, 0xE_0000, ROM_PARAGRAPHS - 1) != 0 || IsRsdp(mem, 0xE_FFF0) || First(mem, 0xF_0000, ROM_PARAGRAPHS - 1) != 0
  {
    RomPlaces(mem);
  }

  lemma HalfBounds(mem: Memory, n: nat)
    ensures First(mem, 0xF_0000, n) == 0 || 0xF_0000 <= First(mem, 0xF_0000, n) < 0xF_0000 + 16 * n
  {
    FirstSplits(mem, 0xF_0000, n, 0);
  }

  /**
   The loader finds what the specification asks for, if and only if neither ROM
   window's last paragraph is doubtful with no structure sooner.
   */
  lemma SearchIsSpecified(mem: Memory)
    ensures Rsdp(mem) == Located(mem) <==>
      && (Sooner(mem, ROM_PARAGRAPHS - 1) || !Doubtful(mem, 0xE000))
      && (Sooner(mem, 2 * ROM_PARAGRAPHS - 1) || !Doubtful(mem, 0xF000))
  {
    var n := ROM_PARAGRAPHS - 1;
    LoaderPicks(mem);
    SpecificationPicks(mem);
    SoonerPlaces(mem);
    HalfBounds(mem, n);
    SameOrNot(InEbda(mem), First(mem, 0xE_0000, n), SegHit(mem, 0xE000, WINDOW - 16), IsRsdp(mem, 0xE_FFF0),
              First(mem, 0xF_0000, n), SegHit(mem, 0xF000, WINDOW - 16), IsRsdp(mem, 0xF_FFF0),
              Sooner(mem, n), Sooner(mem, 2 * ROM_PARAGRAPHS - 1));
    DoubtfulIsDisputed(mem, 0xE000);
    DoubtfulIsDisputed(mem, 0xF000);
  }

  lemma {:induction false} SumOfZeros(mem: Memory, at: nat, n: nat)
    requires at + n <= |mem| && forall i :: at <= i < at + n ==> mem[i] == 0
    ensures Sum(mem, at, n) == 0
  {
    if n > 0 { SumOfZeros(mem, at, n - 1); }
  }

  const LAST: nat := 0xE_FFF0

  /** Zero but for the start of a structure in the last paragraph of the first ROM window, and a one at `stray`. */
  ghost predicate Fixture(mem: Memory, stray: nat) {
    && (stray == 0xE_0000 || stray == 0xF_0000)
    && mem[LAST..LAST + 9] == RSDP_SIG + [225] && mem[stray] == 1
    && forall i :: 0 <= i < ADDRESSES && i != stray && !(LAST <= i < LAST + 9) ==> mem[i] == 0
  }

  lemma MakeFixture(stray: nat) returns (mem: Memory)
    requires stray == 0xE_0000 || stray == 0xF_0000
    ensures Fixture(mem, stray)
  {
    mem := Put(Put(Zeros(ADDRESSES), LAST, RSDP_SIG + [225]), stray, [1]);
  }

  /** Its paragraph sums to zero and carries the signature. */
  lemma FixtureParagraph(mem: Memory, stray: nat)
    requires Fixture(mem, stray)
    ensures mem[LAST..LAST + 8] == RSDP_SIG && Sum(mem, LAST, 16) == 0
  {
    var s := mem[LAST..LAST + 9];
    assert mem[LAST..LAST + 8] == s[..8];
    assert mem[LAST] == s[0] && mem[LAST + 1] == s[1] && mem[LAST + 2] == s[2] && mem[LAST + 3] == s[3];
    assert mem[LAST + 4] == s[4] && mem[LAST + 5] == s[5] && mem[LAST + 6] == s[6];
    assert mem[LAST + 7] == s[7] && mem[LAST + 8] == s[8];
    assert Sum(mem, LAST, 1) == 82;
    assert Sum(mem, LAST, 2) == 165;
    assert Sum(mem, LAST, 3) == 233;
    assert Sum(mem, LAST, 4) == 9;
    assert Sum(mem, LAST, 5) == 89;
    assert Sum(mem, LAST, 6) == 173;
    assert Sum(mem, LAST, 7) == 255;
    assert Sum(mem, LAST, 8) == 31;
    SumOfZeros(mem, LAST + 9, 7);
    SumSplits(mem, LAST, 9, 7);
  }

  /** Four bytes sum to one where the stray byte is and to zero where it is not. */
  lemma FixtureFour(mem: Memory, stray: nat, at: nat)
    requires Fixture(mem, stray) && (at == 0xE_0000 || at == 0xF_0000)
    ensures Sum(mem, at, 4) == if at == stray then 1 else 0
  {
    if at == stray {
      SumOfZeros(mem, at + 1, 3);
      SumSplits(mem, at, 1, 3);
    } else {
      SumOfZeros(mem, at, 4);
    }
  }

  /** The specification sees a structure exactly if the stray byte is not behind it; the loader exactly if it is not at the window's start. */
  lemma FixtureJudged(mem: Memory, stray: nat)
    requires Fixture(mem, stray)
    ensures IsRsdp(mem, LAST) <==> stray == 0xE_0000
    ensures SegHit(mem, 0xE000, 16 * (ROM_PARAGRAPHS - 1)) <==> stray == 0xF_0000
  {
    FixtureParagraph(mem, stray);
    FixtureFour(mem, stray, 0xE_0000);
    FixtureFour(mem, stray, 0xF_0000);
    SumSplits(mem, LAST, 16, 4);
    SegSumWraps(mem, 0xE000, 4);
    SignaturesAgree(mem, 0xE000, WINDOW - 16);
  }

  lemma FixtureElsewhere(mem: Memory, stray: nat, es: nat, k: nat)
    requires Fixture(mem, stray) && (es == 0xE000 || es == 0xF000) && k < ROM_PARAGRAPHS
    requires !(es == 0xE000 && k == ROM_PARAGRAPHS - 1)
    ensures !SegHit(mem, es, 16 * k)
  {
    assert SegByte(mem, es, 16 * k + 0) != RSDP_SIG[0];
  }

  lemma FixtureFirst(mem: Memory, stray: nat)
    requires Fixture(mem, stray)
    ensures Scan(mem, 0xE000, 0, ROM_PARAGRAPHS) == if stray == 0xF_0000 then ROM_PARAGRAPHS - 1 else ROM_PARAGRAPHS
  {
    FixtureJudged(mem, stray);
    forall k: nat | k < ROM_PARAGRAPHS - 1
      ensures !SegHit(mem, 0xE000, 16 * k)
    {
      FixtureElsewhere(mem, stray, 0xE000, k);
    }
    ScanMeets(mem, 0xE000, 0, ROM_PARAGRAPHS, ROM_PARAGRAPHS - 1);
  }

  /** With nothing before `last`, the scan stops there or not at all. */
  lemma {:induction false} ScanMeets(mem: Memory, es: nat, k: nat, n: nat, last: nat)
    requires es < WINDOW && k <= last < n && forall j: nat :: k <= j < last ==> !SegHit(mem, es, 16 * j)
    requires last == n - 1
    ensures Scan(mem, es, k, n) == if SegHit(mem, es, 16 * last) then last else n
    decreases last - k
  {
    if k < last { ScanMeets(mem, es, k + 1, n, last); }
  }

  lemma FixtureSecond(mem: Memory, stray: nat)
    requires Fixture(mem, stray)
    ensures Scan(mem, 0xF000, 0, ROM_PARAGRAPHS) == ROM_PARAGRAPHS
  {
    ScanIsFirst(mem, 0xF000, 0, ROM_PARAGRAPHS);
    var f := Scan(mem, 0xF000, 0, ROM_PARAGRAPHS);
    if f < ROM_PARAGRAPHS { FixtureElsewhere(mem, stray, 0xF000, f); }
  }

  lemma FixtureSearched(mem: Memory, stray: nat)
    requires Fixture(mem, stray)
    ensures Rsdp(mem) == if stray == 0xF_0000 then LAST else 0
  {
    FixtureFirst(mem, stray);
    FixtureSecond(mem, stray);
    assert Word(mem, EBDA_POINTER) == 0;
  }

  /** A structure across the middle of the ROM that the loader does not find. */
  lemma LastParagraphMissed() returns (mem: Memory)
    ensures IsRsdp(mem, LAST) && Rsdp(mem) == 0
  {
    mem := MakeFixture(0xE_0000);
    FixtureJudged(mem, 0xE_0000);
    FixtureSearched(mem, 0xE_0000);
  }

  /** A place there that is no structure, and that the loader takes for one. */
  lemma LastParagraphMistaken() returns (mem: Memory)
    ensures !IsRsdp(mem, LAST) && Rsdp(mem) == LAST
  {
    mem := MakeFixture(0xF_0000);
    FixtureJudged(mem, 0xF_0000);
    FixtureSearched(mem, 0xF_0000);
  }
}
