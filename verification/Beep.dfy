/** A tone offered to the sound ring a block at a time, whatever the ring says it has room for and however much it takes. */
module Beep {
  const HERTZ: nat := 998
  const MS: nat := 400
  const BLOCK: nat := 512 * 2
  const MOST: nat := 512
  const WAVE: nat := 128

  type Sample = s: int | -0x8000 <= s < 0x8000
  type Frame = seq<Sample>

  datatype Sound = Sound(rate: nat, channels: nat)

  /** One turn of the loop as the ring answers it: the room it claims, and how much of an offer it would take. */
  datatype Answer = Answer(room: int, takes: nat)

  /** The sound service as a program finds it: what it has accepted, and the answers it has yet to give. */
  class Ring {
    const channels: nat
    var answers: seq<Answer>
    var accepted: seq<Frame>

    constructor (channels: nat, answers: seq<Answer>)
      ensures this.channels == channels && this.answers == answers && accepted == []
    {
      this.channels, this.answers, accepted := channels, answers, [];
    }

    /** Frames handed over: as many as the ring takes now, from the front of the block. */
    method Write(block: array<Sample>, count: nat) returns (taken: nat)
      requires answers != [] && count * channels <= block.Length
      modifies this`answers, this`accepted
      ensures taken <= count && answers == old(answers)[1..]
      ensures taken == if old(answers)[0].takes < count then old(answers)[0].takes else count
      ensures |accepted| == |old(accepted)| + taken && old(accepted) <= accepted
      ensures forall i :: 0 <= i < taken ==> accepted[|old(accepted)| + i] == FrameOf(block[..], channels, i)
    {
      taken := if answers[0].takes < count then answers[0].takes else count;
      accepted := accepted + seq(taken, i requires 0 <= i < taken reads block => FrameOf(block[..], channels, i));
      answers := answers[1..];
    }
  }

  /** The `i`th frame of a block of interleaved samples. */
  function FrameOf(block: seq<Sample>, channels: nat, i: nat): Frame {
    seq(channels, c requires 0 <= c < channels => if i * channels + c < |block| then block[i * channels + c] else 0)
  }

  /** How long one cycle of the tone is, as much of it as the table holds. */
  function CycleOf(shape: Sound): nat {
    var cycle := shape.rate / HERTZ;
    if cycle > WAVE then WAVE else cycle
  }

  function WantedOf(shape: Sound): nat { shape.rate * MS / 1000 }

  /** The tone's `i`th frame: the sample of the cycle, on every channel. */
  function ToneFrame(wave: seq<Sample>, cycle: nat, channels: nat, i: nat): Frame
    requires 0 < cycle <= |wave|
  {
    seq(channels, _ => wave[i % cycle])
  }

  ghost predicate Tone(frames: seq<Frame>, wave: seq<Sample>, cycle: nat, channels: nat) {
    0 < cycle <= |wave| && forall i :: 0 <= i < |frames| ==> frames[i] == ToneFrame(wave, cycle, channels, i)
  }

  /** `room` frames of the tone from `done` on, mixed into the block. */
  ghost predicate Mixed(block: seq<Sample>, wave: seq<Sample>, cycle: nat, channels: nat, done: nat, room: nat) {
    0 < cycle <= |wave| && forall i :: 0 <= i < room ==> FrameOf(block, channels, i) == ToneFrame(wave, cycle, channels, done + i)
  }

  lemma RoomInBlock(channels: nat, i: nat, room: nat)
    requires i < room <= MOST && channels <= 2
    ensures i * channels + channels <= room * channels <= BLOCK
  {
    assert channels == 0 || channels == 1 || channels == 2;
  }

  /** Mixing never leaves the block, whatever the room, if and only if there are at most two channels. */
  lemma BlockHolds(channels: nat)
    ensures (forall room: nat, i: nat, c: nat {:trigger Inside(room, i, c, channels)} :: Inside(room, i, c, channels)) <==> channels <= 2
  {
    if channels <= 2 {
      forall room: nat, i: nat, c: nat
        ensures Inside(room, i, c, channels)
      {
        if i < room <= MOST && c < channels { RoomInBlock(channels, i, room); }
      }
    } else {
      assert (MOST - 1) * channels + 2 >= BLOCK;
      assert !Inside(MOST, MOST - 1, 2, channels);
    }
  }

  predicate Inside(room: nat, i: nat, c: nat, channels: nat) {
    i < room <= MOST && c < channels ==> i * channels + c < BLOCK
  }

  /** A frame lies in the front of the block its end reaches. */
  lemma FrameKept(b0: seq<Sample>, b1: seq<Sample>, channels: nat, j: nat, base: nat)
    requires |b0| == |b1| && j * channels + channels <= base <= |b0| && b1[..base] == b0[..base]
    ensures FrameOf(b1, channels, j) == FrameOf(b0, channels, j)
  {
    forall c | 0 <= c < channels
      ensures FrameOf(b1, channels, j)[c] == FrameOf(b0, channels, j)[c]
    {
      assert b1[..base][j * channels + c] == b0[..base][j * channels + c];
    }
  }

  lemma FrameMade(b: seq<Sample>, wave: seq<Sample>, cycle: nat, channels: nat, at: nat, i: nat)
    requires 0 < cycle <= |wave| && i * channels + channels <= |b|
    requires b[i * channels..i * channels + channels] == seq(channels, _ => wave[at % cycle])
    ensures FrameOf(b, channels, i) == ToneFrame(wave, cycle, channels, at)
  {
    forall c | 0 <= c < channels
      ensures FrameOf(b, channels, i)[c] == wave[at % cycle]
    {
      assert b[i * channels..i * channels + channels][c] == b[i * channels + c];
    }
  }

  /** The frame at `i` made, those before it as they were. */
  lemma MixedMore(b0: seq<Sample>, b1: seq<Sample>, wave: seq<Sample>, cycle: nat, channels: nat, done: nat, i: nat)
    requires |b0| == |b1| && Mixed(b0, wave, cycle, channels, done, i)
    requires i * channels + channels <= |b0| && b1[..i * channels] == b0[..i * channels]
    requires b1[i * channels..i * channels + channels] == seq(channels, _ => wave[(done + i) % cycle])
    ensures Mixed(b1, wave, cycle, channels, done, i + 1)
  {
    FrameMade(b1, wave, cycle, channels, done + i, i);
    forall j | 0 <= j < i
      ensures FrameOf(b1, channels, j) == ToneFrame(wave, cycle, channels, done + j)
    {
      EarlierEnds(channels, j, i);
      FrameKept(b0, b1, channels, j, i * channels);
    }
  }

  lemma EarlierEnds(channels: nat, j: nat, i: nat)
    requires j < i
    ensures j * channels + channels <= i * channels
  {
    var more := i - j - 1;
    assert i * channels == (j + 1 + more) * channels == j * channels + channels + more * channels;
    assert more * channels >= 0;
  }

  /** One sample on every channel. */
  method MixFrame(block: array<Sample>, base: nat, channels: nat, v: Sample)
    requires base + channels <= block.Length
    modifies block
    ensures block[..base] == old(block[..base]) && block[base..base + channels] == seq(channels, _ => v)
  {
    for c := 0 to channels
      invariant block[..base] == old(block[..base])
      invariant block[base..base + c] == seq(c, _ => v)
    {
      block[base + c] := v;
    }
  }

  /** Exactly what there is room for, mixed. */
  method Mix(block: array<Sample>, wave: seq<Sample>, cycle: nat, channels: nat, done: nat, room: nat)
    requires block.Length == BLOCK && 0 < cycle <= |wave| && room * channels <= BLOCK
    modifies block
    ensures Mixed(block[..], wave, cycle, channels, done, room)
  {
    for i := 0 to room
      invariant Mixed(block[..], wave, cycle, channels, done, i)
    {
      ghost var before := block[..];
      EarlierEnds(channels, i, room);
      MixFrame(block, i * channels, channels, wave[(done + i) % cycle]);
      MixedMore(before, block[..], wave, cycle, channels, done, i);
    }
  }

  lemma ToneMore(frames: seq<Frame>, more: seq<Frame>, block: seq<Sample>, wave: seq<Sample>, cycle: nat, channels: nat, room: nat)
    requires Tone(frames, wave, cycle, channels) && Mixed(block, wave, cycle, channels, |frames|, room)
    requires frames <= more && |more| <= |frames| + room
    requires forall i :: 0 <= i < |more| - |frames| ==> more[|frames| + i] == FrameOf(block, channels, i)
    ensures Tone(more, wave, cycle, channels)
  {
    forall i | 0 <= i < |more|
      ensures more[i] == ToneFrame(wave, cycle, channels, i)
    {
      if i >= |frames| { assert more[|frames| + (i - |frames|)] == FrameOf(block, channels, i - |frames|); }
    }
  }

  /** How many turns would hand something over. */
  function Productive(answers: seq<Answer>): nat {
    if answers == [] then 0
    else Productive(answers[1..]) + if answers[0].room > 0 && answers[0].takes > 0 then 1 else 0
  }

  /** How much of a turn is offered: the room claimed, as much as the block may hold and as is still wanted. */
  function Offer(wanted: nat, taken: nat, room: int): (offer: nat)
    ensures offer <= MOST && (taken <= wanted ==> taken + offer <= wanted)
    ensures offer > 0 <==> room > 0 && taken < wanted
  {
    var most := if room > MOST then MOST else room;
    if most <= 0 || wanted <= taken then 0 else if most > wanted - taken then wanted - taken else most
  }

  /** How much a run of turns takes, when nothing goes wrong in it. */
  function Taken(wanted: nat, answers: seq<Answer>): (taken: nat)
    ensures taken <= wanted
  {
    if answers == [] then 0 else
    var last := answers[|answers| - 1];
    var before := Taken(wanted, answers[..|answers| - 1]);
    var offer := Offer(wanted, before, last.room);
    before + if last.takes < offer then last.takes else offer
  }

  /** What turn `i` is offered, behind the turns before it. */
  function OfferAt(wanted: nat, answers: seq<Answer>, i: nat): nat
    requires i < |answers|
  {
    Offer(wanted, Taken(wanted, answers[..i]), answers[i].room)
  }

  /** Some turn has room for a frame, when one is wanted. */
  predicate HasRoom(answers: seq<Answer>) {
    exists i :: 0 <= i < |answers| && answers[i].room > 0
  }

  /** So many frames of so many channels are more than the block holds. */
  predicate Beyond(frames: nat, channels: nat) { frames * channels > BLOCK }

  /** Some turn is offered more frames of so many channels than the block holds. */
  predicate Overfull(wanted: nat, channels: nat, answers: seq<Answer>) {
    exists i :: 0 <= i < |answers| && Beyond(OfferAt(wanted, answers, i), channels)
  }

  /** How a run of the loop ends: by itself, or at one of the two things C leaves undefined. */
  datatype End = Stopped | DividesByZero | LeavesBlock

  /** The cycle is as many whole frames as fit in a 998th of a second, of the 128 the table holds. */
  lemma CycleIsFloor(shape: Sound, c: nat)
    ensures c == CycleOf(shape) <==> c <= 128 && 998 * c <= shape.rate && (c < 128 ==> shape.rate < 998 * (c + 1))
  {
  }

  /** Four tenths of a second, in whole frames. */
  lemma WantedIsFloor(shape: Sound, n: nat)
    ensures n == WantedOf(shape) <==> 1000 * n <= 400 * shape.rate < 1000 * (n + 1)
  {
  }

  /** An offer is the most that fits the room claimed, the block and what is still wanted. */
  lemma OfferIsLargest(wanted: nat, taken: nat, room: int, n: nat)
    requires taken <= wanted
    ensures n == Offer(wanted, taken, room) <==>
      && (n == 0 || (n <= room && n <= 512 && taken + n <= wanted))
      && !(n + 1 <= room && n + 1 <= 512 && taken + n + 1 <= wanted)
  {
  }

  /** What a tone sounds like: its first cycle is the table's front on every channel, and then it repeats. */
  lemma ToneRepeats(frames: seq<Frame>, wave: seq<Sample>, cycle: nat, channels: nat, i: nat)
    requires Tone(frames, wave, cycle, channels) && i < |frames|
    ensures |frames[i]| == channels
    ensures i < cycle ==> forall c :: 0 <= c < channels ==> frames[i][c] == wave[i]
    ensures i + cycle < |frames| ==> frames[i + cycle] == frames[i]
  {
    if i >= cycle || i + cycle < |frames| { CycleOn(i, cycle); }
  }

  lemma CycleOn(i: nat, cycle: nat)
    requires cycle > 0
    ensures (i + cycle) % cycle == i % cycle
  {
    assert i + cycle == (i / cycle + 1) * cycle + i % cycle;
    RemainderUnique(i + cycle, cycle, i / cycle + 1, i % cycle);
  }

  lemma RemainderUnique(a: int, n: int, q: int, r: int)
    requires 0 <= r < n && a == q * n + r
    ensures a % n == r
  {
    var d := q - a / n;
    assert d * n == a % n - r;
    MultipleBounds(d, n);
  }

  lemma MultipleBounds(d: int, n: int)
    requires n > 0
    ensures d > 0 ==> d * n >= n
    ensures d < 0 ==> d * n <= -n
  {
  }

  /** There is a cycle to play exactly from a rate of 998 up. */
  lemma CycleNeedsRate(shape: Sound)
    ensures CycleOf(shape) == 0 <==> shape.rate < HERTZ
  {
  }

  /** Below three frames a second nothing is wanted, so nothing goes wrong. */
  lemma WantedNeedsRate(shape: Sound)
    ensures WantedOf(shape) == 0 <==> shape.rate < 3
  {
  }

  /** The first `k` turns were taken, each with a cycle to play and inside the block. */
  ghost predicate Passed(wanted: nat, cycle: nat, channels: nat, answers: seq<Answer>, k: nat) {
    true == (
      && k <= |answers|
      && forall i {:trigger answers[i]} :: 0 <= i < k ==>
           (answers[i].room > 0 ==> cycle > 0) && !Beyond(OfferAt(wanted, answers, i), channels))
  }

  lemma PassedMore(wanted: nat, cycle: nat, channels: nat, answers: seq<Answer>, k: nat)
    requires Passed(wanted, cycle, channels, answers, k) && k < |answers|
    requires answers[k].room > 0 ==> cycle > 0 && !Beyond(OfferAt(wanted, answers, k), channels)
    ensures Passed(wanted, cycle, channels, answers, k + 1)
  {
    assert !Beyond(0, channels);
    forall i | 0 <= i < k + 1
      ensures (answers[i].room > 0 ==> cycle > 0) && !Beyond(OfferAt(wanted, answers, i), channels)
    {
      if i == k && answers[i].room <= 0 { assert OfferAt(wanted, answers, i) == 0; }
    }
  }

  /** One more turn, and what has been taken with it. */
  lemma TurnTaken(wanted: nat, answers: seq<Answer>, k: nat)
    requires k < |answers|
    ensures var offer := OfferAt(wanted, answers, k);
      Taken(wanted, answers[..k + 1]) == Taken(wanted, answers[..k]) + if answers[k].takes < offer then answers[k].takes else offer
  {
    assert answers[..k + 1][..k] == answers[..k];
  }

  /** Once all that is wanted is taken, the turns left are offered nothing. */
  lemma {:induction false} NothingMore(wanted: nat, answers: seq<Answer>, k: nat, i: nat)
    requires k <= i <= |answers| && Taken(wanted, answers[..k]) == wanted
    ensures Taken(wanted, answers[..i]) == wanted
    ensures i < |answers| ==> OfferAt(wanted, answers, i) == 0
  {
    if k < i {
      NothingMore(wanted, answers, k, i - 1);
      TurnTaken(wanted, answers, i - 1);
    }
  }

  /** A run that stops by itself never came to a turn that goes wrong, nor would have. */
  lemma StopsQuietly(wanted: nat, cycle: nat, channels: nat, answers: seq<Answer>, k: nat)
    requires Passed(wanted, cycle, channels, answers, k) && (k == |answers| || Taken(wanted, answers[..k]) == wanted)
    ensures !Overfull(wanted, channels, answers) && Taken(wanted, answers) == Taken(wanted, answers[..k])
    ensures cycle == 0 ==> wanted == 0 || !HasRoom(answers)
  {
    assert answers[..|answers|] == answers;
    if k < |answers| { NothingMore(wanted, answers, k, |answers|); }
    forall i | 0 <= i < |answers|
      ensures !Beyond(OfferAt(wanted, answers, i), channels)
    {
      if i < k { assert answers[i] == answers[i]; } else { NothingMore(wanted, answers, k, i); }
    }
    if cycle == 0 { NoneTaken(wanted, answers, k); }
  }

  /** While no turn has room, nothing is taken. */
  lemma {:induction false} NoneTaken(wanted: nat, answers: seq<Answer>, k: nat)
    requires k <= |answers| && forall i {:trigger answers[i]} :: 0 <= i < k ==> answers[i].room <= 0
    ensures Taken(wanted, answers[..k]) == 0
  {
    if k > 0 {
      NoneTaken(wanted, answers, k - 1);
      TurnTaken(wanted, answers, k - 1);
    }
  }

  /** One turn with room: the block mixed and handed over. */
  method PlayTurn(block: array<Sample>, ring: Ring, wave: seq<Sample>, cycle: nat, done: nat, room: nat) returns (taken: nat)
    requires block.Length == BLOCK && 0 < cycle <= |wave| && !Beyond(room, ring.channels) && ring.answers != []
    requires done == |ring.accepted| && (ring.accepted == [] || Tone(ring.accepted, wave, cycle, ring.channels))
    modifies ring, block
    ensures taken == if old(ring.answers)[0].takes < room then old(ring.answers)[0].takes else room
    ensures ring.answers == old(ring.answers)[1..] && |ring.accepted| == done + taken
    ensures Tone(ring.accepted, wave, cycle, ring.channels)
  {
    ghost var before := ring.accepted;
    Mix(block, wave, cycle, ring.channels, done, room);
    taken := ring.Write(block, room);
    ToneMore(before, ring.accepted, block[..], wave, cycle, ring.channels, room);
  }

  /** After `k` turns: what has been accepted, and the turns still to come. */
  ghost predicate Playing(wave: seq<Sample>, wanted: nat, cycle: nat, channels: nat, answers: seq<Answer>, k: nat, rest: seq<Answer>, accepted: seq<Frame>) {
    true == (
      && k <= |answers| && rest == answers[k..] && |accepted| == Taken(wanted, answers[..k])
      && Passed(wanted, cycle, channels, answers, k)
      && (accepted == [] || Tone(accepted, wave, cycle, channels))
      && Productive(answers) <= |accepted| + Productive(rest))
  }

  lemma TurnSkipped(wave: seq<Sample>, wanted: nat, cycle: nat, channels: nat, answers: seq<Answer>, k: nat, rest: seq<Answer>, accepted: seq<Frame>)
    requires Playing(wave, wanted, cycle, channels, answers, k, rest, accepted) && rest != [] && rest[0].room <= 0
    ensures Playing(wave, wanted, cycle, channels, answers, k + 1, rest[1..], accepted)
  {
    TurnTaken(wanted, answers, k);
    PassedMore(wanted, cycle, channels, answers, k);
  }

  lemma TurnPlayed(wave: seq<Sample>, wanted: nat, cycle: nat, channels: nat, answers: seq<Answer>, k: nat, rest: seq<Answer>, accepted: seq<Frame>,
                   room: nat, more: seq<Frame>)
    requires Playing(wave, wanted, cycle, channels, answers, k, rest, accepted) && rest != [] && |accepted| < wanted && rest[0].room > 0
    requires room == Offer(wanted, |accepted|, rest[0].room) && !Beyond(room, channels)
    requires |more| == |accepted| + (if rest[0].takes < room then rest[0].takes else room) && Tone(more, wave, cycle, channels)
    ensures Playing(wave, wanted, cycle, channels, answers, k + 1, rest[1..], more)
  {
    TurnTaken(wanted, answers, k);
    PassedMore(wanted, cycle, channels, answers, k);
  }

  /** A turn that goes wrong, told from the whole run. */
  lemma TurnWrong(wave: seq<Sample>, wanted: nat, cycle: nat, channels: nat, answers: seq<Answer>, k: nat, rest: seq<Answer>, accepted: seq<Frame>,
                  room: nat)
    requires Playing(wave, wanted, cycle, channels, answers, k, rest, accepted) && rest != [] && |accepted| < wanted && rest[0].room > 0
    requires room == Offer(wanted, |accepted|, rest[0].room)
    ensures HasRoom(answers) && (Beyond(room, channels) ==> Overfull(wanted, channels, answers))
  {
    assert answers[k].room > 0;
    assert Beyond(room, channels) ==> Beyond(OfferAt(wanted, answers, k), channels);
  }

  /** The loop: so many frames wanted, of a cycle that may be empty. */
  method PlayOn(wanted: nat, cycle: nat, ring: Ring, wave: seq<Sample>) returns (end: End, done: nat)
    requires cycle <= |wave| && ring.accepted == []
    modifies ring
    ensures done == |ring.accepted| <= wanted && (ring.accepted == [] || Tone(ring.accepted, wave, cycle, ring.channels))
    ensures end == Stopped ==> done == Taken(wanted, old(ring.answers)) && (done == wanted || ring.answers == [])
    ensures end == Stopped && Productive(old(ring.answers)) >= wanted ==> done == wanted
    ensures end == DividesByZero <==> cycle == 0 && wanted > 0 && HasRoom(old(ring.answers))
    ensures end == LeavesBlock <==> cycle > 0 && Overfull(wanted, ring.channels, old(ring.answers))
  {
    ghost var answers, k := ring.answers, 0;
    var block := new Sample[BLOCK](_ => 0);
    done := 0;
    while done < wanted && ring.answers != []
      invariant done == |ring.accepted| <= wanted
      invariant Playing(wave, wanted, cycle, ring.channels, answers, k, ring.answers, ring.accepted)
      decreases |ring.answers|
    {
      var room := ring.answers[0].room;
      if room <= 0 {
        TurnSkipped(wave, wanted, cycle, ring.channels, answers, k, ring.answers, ring.accepted);
        ring.answers, k := ring.answers[1..], k + 1;
        continue;
      }
      if room > 512 { room := 512; }
      if room > wanted - done { room := wanted - done; }
      TurnWrong(wave, wanted, cycle, ring.channels, answers, k, ring.answers, ring.accepted, room);
      if cycle == 0 { return DividesByZero, done; }
      if Beyond(room, ring.channels) { return LeavesBlock, done; }
      ghost var rest, before := ring.answers, ring.accepted;
      var taken := PlayTurn(block, ring, wave, cycle, done, room);
      TurnPlayed(wave, wanted, cycle, ring.channels, answers, k, rest, before, room, ring.accepted);
      done, k := done + taken, k + 1;
    }
    end := Stopped;
    StopsQuietly(wanted, cycle, ring.channels, answers, k);
  }

  /**
   The tone played. Whatever the ring answers, what it has accepted is the tone
   from its start with no gap and no repeat, and never more than was wanted. The
   run ends at a division by zero exactly if the rate is too low for a cycle and
   a frame is wanted and some turn has room for it, and behind the block exactly
   if there is a cycle and some turn is offered more than the block holds.
   */
  method Play(shape: Sound, ring: Ring, wave: seq<Sample>) returns (end: End, done: nat)
    requires |wave| == WAVE && ring.channels == shape.channels && ring.accepted == []
    modifies ring
    ensures done == |ring.accepted| <= WantedOf(shape)
    ensures ring.accepted != [] ==> Tone(ring.accepted, wave, CycleOf(shape), shape.channels)
    ensures end == Stopped ==> done == Taken(WantedOf(shape), old(ring.answers))
    ensures end == Stopped ==> done == WantedOf(shape) || ring.answers == []
    ensures end == Stopped && Productive(old(ring.answers)) >= WantedOf(shape) ==> done == WantedOf(shape)
    ensures end == DividesByZero <==> shape.rate < HERTZ && WantedOf(shape) > 0 && HasRoom(old(ring.answers))
    ensures end == LeavesBlock <==> shape.rate >= HERTZ && Overfull(WantedOf(shape), shape.channels, old(ring.answers))
  {
    var cycle := shape.rate / HERTZ;
    if cycle > WAVE { cycle := WAVE; }
    var wanted := shape.rate * MS / 1000;
    end, done := PlayOn(wanted, cycle, ring, wave);
  }

  /** That takes more than two channels. */
  lemma OverfullNeedsChannels(wanted: nat, channels: nat, answers: seq<Answer>)
    requires Overfull(wanted, channels, answers)
    ensures channels > 2
  {
    var i :| 0 <= i < |answers| && Beyond(OfferAt(wanted, answers, i), channels);
    var offer := OfferAt(wanted, answers, i);
    if channels <= 2 && offer > 0 { RoomInBlock(channels, offer - 1, offer); }
  }
}
