/**
 The raw-photograph fixture: tables written front to back around a picture they
 name, and a reader that starts at the header and follows them.
 */
module Tiff {
  import opened ByteFields

  datatype Option<T> = None | Some(value: T)

  /** What a raw file is about. */
  datatype Photo = Photo(make: seq<byte>, model: seq<byte>, orientation: nat, picture: seq<byte>)

  const MAKE := 0x010F
  const MODEL := 0x0110
  const ORIENTATION := 0x0112
  const SUB_TABLE := 0x014A
  const PICTURE_AT := 0x0201
  const PICTURE_LENGTH := 0x0202

  const ASCII := 2
  const SHORT := 3
  const LONG := 4

  const FIELD_END: nat := 0x1_0000_0000
  const HEADER: nat := 8
  const ENTRY: nat := 12

  // ------------------------------------------------------------------
  // Reading, on any bytes
  // ------------------------------------------------------------------

  function WordAt(b: seq<byte>, at: nat): Option<nat> {
    if at + 2 <= |b| then Some(Word(b, at)) else None
  }

  /** The first of the `n` entries at `at` that carries the tag. */
  function FindEntry(b: seq<byte>, at: nat, n: nat, tag: nat): Option<nat>
    decreases n
  {
    if n == 0 || at + ENTRY > |b| then None
    else if Word(b, at) == tag then Some(at)
    else FindEntry(b, at + ENTRY, n - 1, tag)
  }

  /** Where in the table at `table` the tag's entry is. */
  function Lookup(b: seq<byte>, table: nat, tag: nat): Option<nat> {
    match WordAt(b, table)
    case None => None
    case Some(n) => FindEntry(b, table + 2, n, tag)
  }

  /** A value of one 32-bit number. */
  function LongOf(b: seq<byte>, table: nat, tag: nat): Option<nat> {
    match Lookup(b, table, tag)
    case None => None
    case Some(at) =>
      if at + ENTRY <= |b| && Word(b, at + 2) == LONG && Dword(b, at + 4) == 1 then Some(Dword(b, at + 8)) else None
  }

  /** A value of one 16-bit number, which sits in the front of the entry's last field. */
  function ShortOf(b: seq<byte>, table: nat, tag: nat): Option<nat> {
    match Lookup(b, table, tag)
    case None => None
    case Some(at) =>
      if at + ENTRY <= |b| && Word(b, at + 2) == SHORT && Dword(b, at + 4) == 1 then Some(Word(b, at + 8)) else None
  }

  /** A string: in the entry when four bytes hold it, and otherwise where the entry says. */
  function TextOf(b: seq<byte>, table: nat, tag: nat): Option<seq<byte>> {
    match Lookup(b, table, tag)
    case None => None
    case Some(at) =>
      if !(at + ENTRY <= |b| && Word(b, at + 2) == ASCII) then None else
      var n := Dword(b, at + 4);
      var from := if n <= 4 then at + 8 else Dword(b, at + 8);
      if from + n <= |b| then Some(b[from..from + n]) else None
  }

  /** The first table, if the header is a little-endian one. */
  function FirstTable(b: seq<byte>): Option<nat> {
    if HEADER <= |b| && b[..2] == [0x49, 0x49] && Word(b, 2) == 42 then Some(Dword(b, 4)) else None
  }

  /** The picture the table's sub-table names. */
  function PictureOf(b: seq<byte>, table: nat): Option<seq<byte>> {
    match LongOf(b, table, SUB_TABLE)
    case None => None
    case Some(sub) =>
      match (LongOf(b, sub, PICTURE_AT), LongOf(b, sub, PICTURE_LENGTH))
      case (Some(at), Some(n)) => if at + n <= |b| then Some(b[at..at + n]) else None
      case _ => None
  }

  /** Everything the tables say, following them from the header. */
  function Read(b: seq<byte>): Option<Photo> {
    match FirstTable(b)
    case None => None
    case Some(table) =>
      match (TextOf(b, table, MAKE), TextOf(b, table, MODEL), ShortOf(b, table, ORIENTATION), PictureOf(b, table))
      case (Some(make), Some(model), Some(orientation), Some(picture)) => Some(Photo(make, model, orientation, picture))
      case _ => None
  }

  // ------------------------------------------------------------------
  // Writing
  // ------------------------------------------------------------------

  /** Whether `x` stands at `at` in `b`. */
  ghost predicate Has(b: seq<byte>, at: nat, x: seq<byte>) {
    at + |x| <= |b| && b[at..at + |x|] == x
  }

  function Entry(tag: nat, kind: nat, count: nat, value: nat): (e: seq<byte>)
    requires tag < 0x1_0000 && kind < 0x1_0000 && count < FIELD_END && value < FIELD_END
    ensures |e| == ENTRY
  {
    Word2(tag) + Word2(kind) + Dword4(count) + Dword4(value)
  }

  /** One twelve-byte entry reads back as what it was made of. */
  lemma EntryReads(b: seq<byte>, at: nat, tag: nat, kind: nat, count: nat, value: nat)
    requires tag < 0x1_0000 && kind < 0x1_0000 && count < FIELD_END && value < FIELD_END
    requires Has(b, at, Entry(tag, kind, count, value))
    ensures Word(b, at) == tag && Word(b, at + 2) == kind && Dword(b, at + 4) == count && Dword(b, at + 8) == value
  {
    var e := Entry(tag, kind, count, value);
    forall i | 0 <= i < ENTRY
      ensures b[at + i] == e[i]
    {
      assert b[at..at + ENTRY][i] == b[at + i];
    }
    assert Word(e, 0) == Word(Word2(tag), 0) && Word(e, 2) == Word(Word2(kind), 0);
    assert Dword(e, 4) == Dword(Dword4(count), 0) && Dword(e, 8) == Dword(Dword4(value), 0);
  }

  /** What stands in a file stands in every file that begins with it. */
  lemma HasMore(b: seq<byte>, more: seq<byte>)
    ensures Has(b + more, |b|, more)
    ensures forall at: nat, x {:trigger Has(b, at, x)} :: Has(b, at, x) ==> Has(b + more, at, x)
  {
    forall at: nat, x | Has(b, at, x)
      ensures Has(b + more, at, x)
    {
      assert (b + more)[at..at + |x|] == b[at..at + |x|];
    }
  }

  /** How a raw file is laid out: the offsets its tables carry. */
  datatype Layout = Layout(sub: nat, make: nat, model: nat, picture: nat)

  function LayoutOf(p: Photo, filler: nat): Layout {
    var sub := HEADER + 2 + 4 * ENTRY + 4;
    var make := sub + 2 + 2 * ENTRY + 4;
    var model := make + |p.make|;
    Layout(sub, make, model, model + |p.model| + filler)
  }

  /** Every number of the file fits the field it goes in. */
  predicate Packs(p: Photo, filler: nat) {
    LayoutOf(p, filler).picture < FIELD_END && |p.picture| < FIELD_END && p.orientation < 0x1_0000
  }

  predicate Turns(orientation: nat) { orientation == 1 || orientation == 3 || orientation == 6 || orientation == 8 }

  /** The orientation's entry: its value in the front of the last field, nothing behind it. */
  function OrientationEntry(orientation: nat): (e: seq<byte>)
    requires orientation < 0x1_0000
    ensures |e| == ENTRY
  {
    Word2(ORIENTATION) + Word2(SHORT) + Dword4(1) + (Word2(orientation) + Word2(0))
  }

  /** The header and the first table, where they should be. */
  ghost predicate FirstIn(b: seq<byte>, p: Photo, filler: nat)
    requires Packs(p, filler)
  {
    var l := LayoutOf(p, filler);
    && Has(b, 0, [0x49, 0x49] + Word2(42) + Dword4(HEADER))
    && Has(b, HEADER, Word2(4))
    && Has(b, HEADER + 2, Entry(MAKE, ASCII, |p.make|, l.make))
    && Has(b, HEADER + 2 + ENTRY, Entry(MODEL, ASCII, |p.model|, l.model))
    && Has(b, HEADER + 2 + 2 * ENTRY, OrientationEntry(p.orientation))
    && Has(b, HEADER + 2 + 3 * ENTRY, Entry(SUB_TABLE, LONG, 1, l.sub))
    && Has(b, HEADER + 2 + 4 * ENTRY, Dword4(0))
  }

  /** The sub-table the first one points at. */
  ghost predicate SubIn(b: seq<byte>, p: Photo, filler: nat)
    requires Packs(p, filler)
  {
    var l := LayoutOf(p, filler);
    && Has(b, l.sub, Word2(2))
    && Has(b, l.sub + 2, Entry(PICTURE_AT, LONG, 1, l.picture))
    && Has(b, l.sub + 2 + ENTRY, Entry(PICTURE_LENGTH, LONG, 1, |p.picture|))
    && Has(b, l.sub + 2 + 2 * ENTRY, Dword4(0))
  }

  /** What stands where in a raw file. */
  ghost predicate LaidOut(b: seq<byte>, p: Photo, filler: nat) {
    Packs(p, filler) &&
    var l := LayoutOf(p, filler);
    true == (
      && FirstIn(b, p, filler) && SubIn(b, p, filler)
      && Has(b, l.make, p.make) && Has(b, l.model, p.model)
      && Has(b, l.model + |p.model|, Zeros(filler)) && Has(b, l.picture, p.picture))
  }

  method WriteFirst(p: Photo, filler: nat) returns (out: seq<byte>)
    requires Packs(p, filler)
    ensures |out| == LayoutOf(p, filler).sub && FirstIn(out, p, filler)
  {
    var l := LayoutOf(p, filler);
    out := [0x49, 0x49] + Word2(42) + Dword4(HEADER);
    assert Has(out, 0, out);
    out := Append(out, Word2(4));
    out := Append(out, Entry(MAKE, ASCII, |p.make|, l.make));
    out := Append(out, Entry(MODEL, ASCII, |p.model|, l.model));
    out := Append(out, OrientationEntry(p.orientation));
    out := Append(out, Entry(SUB_TABLE, LONG, 1, l.sub));
    out := Append(out, Dword4(0));
  }

  method WriteSub(first: seq<byte>, p: Photo, filler: nat) returns (out: seq<byte>)
    requires Packs(p, filler) && |first| == LayoutOf(p, filler).sub && FirstIn(first, p, filler)
    ensures |out| == LayoutOf(p, filler).make && FirstIn(out, p, filler) && SubIn(out, p, filler)
  {
    var l := LayoutOf(p, filler);
    out := Append(first, Word2(2));
    out := Append(out, Entry(PICTURE_AT, LONG, 1, l.picture));
    out := Append(out, Entry(PICTURE_LENGTH, LONG, 1, |p.picture|));
    out := Append(out, Dword4(0));
  }

  /** What a file grown by one piece still holds. */
  method Append(b: seq<byte>, more: seq<byte>) returns (out: seq<byte>)
    ensures |out| == |b| + |more| && Has(out, |b|, more)
    ensures forall at: nat, x {:trigger Has(b, at, x)} :: Has(b, at, x) ==> Has(out, at, x)
  {
    HasMore(b, more);
    out := b + more;
  }

  /** A raw file around a picture, refused when a number does not fit its field or nothing turns a picture so. */
  method Raw(p: Photo, filler: nat) returns (ok: bool, out: seq<byte>)
    ensures ok <==> && p.orientation in {1, 3, 6, 8} && |p.picture| < 0x1_0000_0000
                    && 92 + |p.make| + |p.model| + filler < 0x1_0000_0000
    ensures ok ==> |out| == 92 + |p.make| + |p.model| + filler + |p.picture| && LaidOut(out, p, filler)
    ensures ok && |p.make| > 4 && |p.model| > 4 ==> Read(out) == Some(p)
  {
    out := [];
    ok := Turns(p.orientation) && Packs(p, filler);
    if !ok { return; }
    var l := LayoutOf(p, filler);
    out := WriteFirst(p, filler);
    out := WriteSub(out, p, filler);
    out := Append(out, p.make);
    out := Append(out, p.model);
    assert |out| == l.model + |p.model|;
    out := Append(out, Zeros(filler));
    out := Append(out, p.picture);
    assert |out| == l.picture + |p.picture|;
    if |p.make| > 4 && |p.model| > 4 { LaidOutReads(out, p, filler); }
  }

  // ------------------------------------------------------------------
  // Writing against reading
  // ------------------------------------------------------------------

  lemma HasWord(b: seq<byte>, at: nat, w: nat)
    requires w < 0x1_0000 && Has(b, at, Word2(w))
    ensures Word(b, at) == w
  {
    assert b[at..at + 2][0] == b[at] && b[at..at + 2][1] == b[at + 1];
  }

  lemma HeaderReads(b: seq<byte>)
    requires Has(b, 0, [0x49, 0x49] + Word2(42) + Dword4(HEADER))
    ensures FirstTable(b) == Some(HEADER)
  {
    var h := [0x49, 0x49] + Word2(42) + Dword4(HEADER);
    assert b[0..8] == h;
    forall i | 0 <= i < 8
      ensures b[i] == h[i]
    {
      assert b[0..8][i] == b[i];
    }
    assert b[..2] == [0x49, 0x49];
    assert Word(b, 2) == Word(Word2(42), 0) && Dword(b, 4) == Dword(Dword4(HEADER), 0);
  }

  lemma OrientationReads(b: seq<byte>, at: nat, orientation: nat)
    requires orientation < 0x1_0000 && Has(b, at, OrientationEntry(orientation))
    ensures Word(b, at) == ORIENTATION && Word(b, at + 2) == SHORT && Dword(b, at + 4) == 1 && Word(b, at + 8) == orientation
  {
    var e := OrientationEntry(orientation);
    forall i | 0 <= i < ENTRY
      ensures b[at + i] == e[i]
    {
      assert b[at..at + ENTRY][i] == b[at + i];
    }
    assert Word(e, 0) == Word(Word2(ORIENTATION), 0) && Word(e, 2) == Word(Word2(SHORT), 0);
    assert Dword(e, 4) == Dword(Dword4(1), 0) && Word(e, 8) == Word(Word2(orientation), 0);
  }

  /** An entry is passed over for its tag. */
  lemma FindPast(b: seq<byte>, at: nat, n: nat, tag: nat)
    requires n > 0 && at + ENTRY <= |b| && Word(b, at) != tag
    ensures FindEntry(b, at, n, tag) == FindEntry(b, at + ENTRY, n - 1, tag)
  {
  }

  /** Each entry of the first table is found by its tag. */
  lemma FirstLookups(b: seq<byte>)
    requires HEADER + 2 + 4 * ENTRY <= |b| && Word(b, HEADER) == 4
    requires Word(b, HEADER + 2) == MAKE && Word(b, HEADER + 2 + ENTRY) == MODEL
    requires Word(b, HEADER + 2 + 2 * ENTRY) == ORIENTATION && Word(b, HEADER + 2 + 3 * ENTRY) == SUB_TABLE
    ensures Lookup(b, HEADER, MAKE) == Some(HEADER + 2) && Lookup(b, HEADER, MODEL) == Some(HEADER + 2 + ENTRY)
    ensures Lookup(b, HEADER, ORIENTATION) == Some(HEADER + 2 + 2 * ENTRY) && Lookup(b, HEADER, SUB_TABLE) == Some(HEADER + 2 + 3 * ENTRY)
  {
    var at := HEADER + 2;
    forall tag | tag == MODEL || tag == ORIENTATION || tag == SUB_TABLE
      ensures FindEntry(b, at, 4, tag) == FindEntry(b, at + ENTRY, 3, tag)
    {
      FindPast(b, at, 4, tag);
    }
    FindPast(b, at + ENTRY, 3, ORIENTATION);
    FindPast(b, at + ENTRY, 3, SUB_TABLE);
    FindPast(b, at + 2 * ENTRY, 2, SUB_TABLE);
  }

  /** And each of the sub-table's. */
  lemma SubLookups(b: seq<byte>, sub: nat)
    requires sub + 2 + 2 * ENTRY <= |b| && Word(b, sub) == 2
    requires Word(b, sub + 2) == PICTURE_AT && Word(b, sub + 2 + ENTRY) == PICTURE_LENGTH
    ensures Lookup(b, sub, PICTURE_AT) == Some(sub + 2) && Lookup(b, sub, PICTURE_LENGTH) == Some(sub + 2 + ENTRY)
  {
    FindPast(b, sub + 2, 2, PICTURE_LENGTH);
  }

  /** Where a string's entry leads: to the string, if and only if it is too long for the entry or the offset spells it. */
  lemma TextEntryReads(b: seq<byte>, table: nat, tag: nat, at: nat, text: seq<byte>, where: nat)
    requires tag < 0x1_0000 && |text| < FIELD_END && where < FIELD_END
    requires Lookup(b, table, tag) == Some(at) && Has(b, at, Entry(tag, ASCII, |text|, where)) && Has(b, where, text)
    ensures TextOf(b, table, tag) == Some(text) <==> |text| > 4 || text == Dword4(where)[..|text|]
  {
    EntryReads(b, at, tag, ASCII, |text|, where);
    if |text| <= 4 { InlineBytes(b, at, tag, |text|, where); }
  }

  lemma InlineBytes(b: seq<byte>, at: nat, tag: nat, n: nat, where: nat)
    requires tag < 0x1_0000 && n <= 4 && where < FIELD_END && Has(b, at, Entry(tag, ASCII, n, where))
    ensures b[at + 8..at + 8 + n] == Dword4(where)[..n]
  {
    var e := Entry(tag, ASCII, n, where);
    assert e[8..] == Dword4(where);
    assert b[at + 8..at + 8 + n] == b[at..at + ENTRY][8..8 + n];
  }

  /** The bytes of two words, wherever they stand. */
  lemma WordsBytes(b: seq<byte>, at: nat, w: nat, w1: nat)
    requires w < 0x1_0000 && w1 < 0x100 && at + 4 <= |b| && Word(b, at) == w && Word(b, at + 2) == w1
    ensures b[at..at + 4] == [w % 0x100, w / 0x100, w1, 0]
  {
  }

  /** Twelve bytes: a tag and a kind, a count and a value. */
  predicate EntryAt(b: seq<byte>, at: nat, head: seq<byte>, count: nat, value: nat) {
    true == (at + 12 <= |b| && b[at..at + 4] == head && Dword(b, at + 4) == count && Dword(b, at + 8) == value)
  }

  lemma EntryBytes(b: seq<byte>, at: nat, tag: nat, kind: nat, count: nat, value: nat, head: seq<byte>)
    requires tag < 0x1_0000 && kind < 0x100 && count < FIELD_END && value < FIELD_END
    requires Has(b, at, Entry(tag, kind, count, value)) && head == [tag % 0x100, tag / 0x100, kind, 0]
    ensures EntryAt(b, at, head, count, value)
  {
    EntryReads(b, at, tag, kind, count, value);
    WordsBytes(b, at, tag, kind);
  }

  /** The orientation's value stands in the front of the last field, with nothing behind it. */
  lemma OrientationBytes(b: seq<byte>, at: nat, orientation: nat)
    requires orientation < 0x1_0000 && Has(b, at, OrientationEntry(orientation))
    ensures EntryAt(b, at, [0x12, 0x01, 3, 0], 1, orientation)
  {
    OrientationReads(b, at, orientation);
    WordsBytes(b, at, ORIENTATION, SHORT);
    assert b[at + 10..at + 12] == b[at..at + ENTRY][10..12] == OrientationEntry(orientation)[10..12] == [0, 0];
    assert b[at + 10] == b[at + 10..at + 12][0] && b[at + 11] == b[at + 10..at + 12][1];
  }

  lemma HeaderBytes(b: seq<byte>)
    requires Has(b, 0, [0x49, 0x49] + Word2(42) + Dword4(HEADER))
    ensures b[0..8] == [0x49, 0x49, 42, 0, 8, 0, 0, 0]
  {
    var h := [0x49, 0x49] + Word2(42) + Dword4(HEADER);
    assert h == [0x49, 0x49, 42, 0, 8, 0, 0, 0];
  }

  /** The file's own bytes: a little-endian header, and the first table's four entries behind it. */
  lemma FirstBytes(b: seq<byte>, p: Photo, filler: nat)
    requires LaidOut(b, p, filler)
    ensures |b| >= 92 && b[0..8] == [0x49, 0x49, 42, 0, 8, 0, 0, 0] && Word(b, 8) == 4
    ensures EntryAt(b, 10, [0x0F, 0x01, 2, 0], |p.make|, 92)
    ensures EntryAt(b, 22, [0x10, 0x01, 2, 0], |p.model|, 92 + |p.make|)
    ensures EntryAt(b, 34, [0x12, 0x01, 3, 0], 1, p.orientation)
    ensures EntryAt(b, 46, [0x4A, 0x01, 4, 0], 1, 62)
  {
    HeaderBytes(b);
    HasWord(b, 8, 4);
    EntryBytes(b, 10, MAKE, ASCII, |p.make|, 92, [0x0F, 0x01, 2, 0]);
    EntryBytes(b, 22, MODEL, ASCII, |p.model|, 92 + |p.make|, [0x10, 0x01, 2, 0]);
    OrientationBytes(b, 34, p.orientation);
    EntryBytes(b, 46, SUB_TABLE, LONG, 1, 62, [0x4A, 0x01, 4, 0]);
  }

  /** The sub-table's two, and what they name: the strings and the filler before it. */
  lemma SubBytes(b: seq<byte>, p: Photo, filler: nat)
    requires LaidOut(b, p, filler)
    ensures |b| >= 92 + |p.make| + |p.model| + filler + |p.picture| && Word(b, 62) == 2
    ensures EntryAt(b, 64, [0x01, 0x02, 4, 0], 1, 92 + |p.make| + |p.model| + filler)
    ensures EntryAt(b, 76, [0x02, 0x02, 4, 0], 1, |p.picture|)
  {
    HasWord(b, 62, 2);
    EntryBytes(b, 64, PICTURE_AT, LONG, 1, 92 + |p.make| + |p.model| + filler, [0x01, 0x02, 4, 0]);
    EntryBytes(b, 76, PICTURE_LENGTH, LONG, 1, |p.picture|, [0x02, 0x02, 4, 0]);
  }

  /** A file laid out so leads a reader back to the picture and all that goes with it. */
  lemma LaidOutReads(b: seq<byte>, p: Photo, filler: nat)
    requires LaidOut(b, p, filler) && |p.make| > 4 && |p.model| > 4
    ensures Read(b) == Some(p)
  {
    var l := LayoutOf(p, filler);
    HeaderReads(b);
    HasWord(b, HEADER, 4);
    EntryReads(b, HEADER + 2, MAKE, ASCII, |p.make|, l.make);
    EntryReads(b, HEADER + 2 + ENTRY, MODEL, ASCII, |p.model|, l.model);
    OrientationReads(b, HEADER + 2 + 2 * ENTRY, p.orientation);
    EntryReads(b, HEADER + 2 + 3 * ENTRY, SUB_TABLE, LONG, 1, l.sub);
    FirstLookups(b);
    TextEntryReads(b, HEADER, MAKE, HEADER + 2, p.make, l.make);
    TextEntryReads(b, HEADER, MODEL, HEADER + 2 + ENTRY, p.model, l.model);
    PictureReads(b, p, filler);
  }

  lemma PictureReads(b: seq<byte>, p: Photo, filler: nat)
    requires LaidOut(b, p, filler) && LongOf(b, HEADER, SUB_TABLE) == Some(LayoutOf(p, filler).sub)
    ensures PictureOf(b, HEADER) == Some(p.picture)
  {
    var l := LayoutOf(p, filler);
    SubReads(b, l.sub, l.picture, |p.picture|);
    FollowsToPicture(b, HEADER, l.sub, l.picture, p.picture);
  }

  lemma FollowsToPicture(b: seq<byte>, table: nat, sub: nat, at: nat, picture: seq<byte>)
    requires LongOf(b, table, SUB_TABLE) == Some(sub) && LongOf(b, sub, PICTURE_AT) == Some(at)
    requires LongOf(b, sub, PICTURE_LENGTH) == Some(|picture|) && Has(b, at, picture)
    ensures PictureOf(b, table) == Some(picture)
  {
  }

  lemma SubReads(b: seq<byte>, sub: nat, at: nat, n: nat)
    requires at < FIELD_END && n < FIELD_END && Has(b, sub, Word2(2))
    requires Has(b, sub + 2, Entry(PICTURE_AT, LONG, 1, at)) && Has(b, sub + 2 + ENTRY, Entry(PICTURE_LENGTH, LONG, 1, n))
    ensures LongOf(b, sub, PICTURE_AT) == Some(at) && LongOf(b, sub, PICTURE_LENGTH) == Some(n)
  {
    HasWord(b, sub, 2);
    EntryReads(b, sub + 2, PICTURE_AT, LONG, 1, at);
    EntryReads(b, sub + 2 + ENTRY, PICTURE_LENGTH, LONG, 1, n);
    SubLookups(b, sub);
    LongEntryReads(b, sub, PICTURE_AT, sub + 2, at);
    LongEntryReads(b, sub, PICTURE_LENGTH, sub + 2 + ENTRY, n);
  }

  lemma LongEntryReads(b: seq<byte>, table: nat, tag: nat, at: nat, value: nat)
    requires tag < 0x1_0000 && value < FIELD_END && Lookup(b, table, tag) == Some(at) && Has(b, at, Entry(tag, LONG, 1, value))
    ensures LongOf(b, table, tag) == Some(value)
  {
    EntryReads(b, at, tag, LONG, 1, value);
  }
}
