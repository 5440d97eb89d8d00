/**
 The shared-memory ring between two processes, with its wake flags and sticky
 events, as an interleaved transition system: one producer, one consumer, every
 shared access a step of its own, and the scheduler free to pick either party.

 Indices are free-running 32-bit words. The counts `sent` and `|got|` are the
 unbounded totals those words stand for.
 */
module SharedRing {

  const WORD: nat := 0x1_0000_0000
  const MAX_EVENT: nat := 0xFFFF_FFFF

  // ------------------------------------------------------------------
  // Index arithmetic: masks, powers of two, and the 32-bit wrap
  // ------------------------------------------------------------------

  /** Bitwise conjunction of two naturals. */
  function And(a: nat, b: nat): nat {
    if a == 0 || b == 0 then 0
    else (if a % 2 == 1 && b % 2 == 1 then 1 else 0) + 2 * And(a / 2, b / 2)
  }

  predicate PowerOfTwo(n: nat) {
    n == 1 || (n > 1 && n % 2 == 0 && PowerOfTwo(n / 2))
  }

  /** The capacities a 32-bit header can hold. */
  predicate LegalCapacity(n: nat) { PowerOfTwo(n) && n < WORD }

  /** Occupancy as the two parties compute it: a wrapping 32-bit difference. */
  function Occupancy(head: nat, tail: nat): int {
    if tail <= head then head - tail else head + WORD - tail
  }

  /** A 32-bit increment. */
  function Increment(word: nat): nat {
    if word + 1 == WORD then 0 else word + 1
  }

  lemma ModuloSplits(i: nat, k: nat)
    requires k > 0
    ensures i % (2 * k) == i % 2 + 2 * ((i / 2) % k)
  {
    var q, r := (i / 2) / k, (i / 2) % k;
    assert i == 2 * (q * k + r) + i % 2;
    assert i == q * (2 * k) + (2 * r + i % 2);
    ModuloUnique(i, 2 * k, q, 2 * r + i % 2);
  }

  lemma MultipleBounds(d: int, n: int)
    requires n > 0
    ensures d > 0 ==> d * n >= n
    ensures d < 0 ==> d * n <= -n
  {
  }

  lemma ModuloUnique(i: nat, n: nat, q: int, r: nat)
    requires 0 <= r < n && i == q * n + r
    ensures i % n == r
  {
    var d := i / n - q;
    assert d * n == r - i % n;
    MultipleBounds(d, n);
  }

  /** Masking with `capacity - 1` is the remainder, for every power of two. */
  lemma {:induction false} MaskIsModulo(i: nat, capacity: nat)
    requires PowerOfTwo(capacity)
    ensures And(i, capacity - 1) == i % capacity
    decreases capacity
  {
    if i == 0 {
      ModuloUnique(0, capacity, 0, 0);
    } else if capacity > 1 {
      var k := capacity / 2;
      calc {
        And(i, capacity - 1);
        { assert (capacity - 1) / 2 == k - 1; }
        i % 2 + 2 * And(i / 2, k - 1);
        { MaskIsModulo(i / 2, k); }
        i % 2 + 2 * ((i / 2) % k);
        { ModuloSplits(i, k); }
        i % capacity;
      }
    }
  }

  /** Of two powers of two, the smaller divides the larger. */
  lemma {:induction false} SmallerDivides(a: nat, b: nat)
    requires PowerOfTwo(a) && PowerOfTwo(b) && a <= b
    ensures b % a == 0
    decreases a
  {
    if a > 1 {
      SmallerDivides(a / 2, b / 2);
      ModuloSplits(b, a / 2);
    }
  }

  function SlotOf(index: nat, capacity: nat): (slot: nat)
    requires PowerOfTwo(capacity)
    ensures slot < capacity
  {
    MaskIsModulo(index, capacity);
    And(index, capacity - 1)
  }

  lemma ModuloOfMultiple(total: nat, w: nat, capacity: nat)
    requires w > 0 && capacity > 0
    ensures (total % (w * capacity)) % capacity == total % capacity
  {
    var n := w * capacity;
    var q, r := total / n, total % n;
    assert q * n == (q * w) * capacity;
    assert total == (q * w + r / capacity) * capacity + r % capacity;
    ModuloUnique(total, capacity, q * w + r / capacity, r % capacity);
  }

  lemma {:induction false} ProductIsPowerOfTwo(a: nat, b: nat)
    requires PowerOfTwo(a) && PowerOfTwo(b)
    ensures PowerOfTwo(a * b)
    decreases a
  {
    if a > 1 {
      ProductIsPowerOfTwo(a / 2, b);
      DoubleIsPowerOfTwo((a / 2) * b);
      assert a * b == 2 * ((a / 2) * b);
    }
  }

  lemma DoubleIsPowerOfTwo(n: nat)
    requires PowerOfTwo(n)
    ensures PowerOfTwo(2 * n)
  {
  }

  lemma WordIsPowerOfTwo()
    ensures PowerOfTwo(WORD)
  {
    ProductIsPowerOfTwo(2, 2);
    ProductIsPowerOfTwo(4, 4);
    ProductIsPowerOfTwo(16, 16);
    ProductIsPowerOfTwo(256, 256);
    ProductIsPowerOfTwo(65536, 65536);
  }

  /** Crossing 2^32 does not move an index to another slot. */
  lemma WrapKeepsSlot(total: nat, capacity: nat)
    requires LegalCapacity(capacity)
    ensures SlotOf(total % WORD, capacity) == total % capacity
  {
    WordIsPowerOfTwo();
    SmallerDivides(capacity, WORD);
    var w := WORD / capacity;
    assert WORD == w * capacity;
    MaskIsModulo(total % WORD, capacity);
    ModuloOfMultiple(total, w, capacity);
  }

  /** The wrapping difference of the words is the true difference of the totals. */
  lemma WrapKeepsDifference(h: nat, t: nat)
    requires t <= h < t + WORD
    ensures Occupancy(h % WORD, t % WORD) == h - t
  {
    var q := h / WORD - t / WORD;
    assert h % WORD - t % WORD == (h - t) - q * WORD;
  }

  // ------------------------------------------------------------------
  // The protocol
  // ------------------------------------------------------------------

  datatype Party = Producer | Consumer

  /** Where a party stands in its list of steps; the two lists mirror each other. */
  datatype At =
    | Check      // is there room (or an item)?
    | Ask        // raise the own wake flag
    | Recheck    // look once more before sleeping
    | Wait       // ev_wait on the own event
    | Move       // write the slot, or read it
    | Publish    // store head, or tail
    | Exchange   // xchg the other party's wake flag with zero
    | Signal     // ev_signal the other party's event

  datatype State<T> = State(
    capacity: nat,
    head: nat, tail: nat,                // shared 32-bit words
    needWakeCons: bool, needWakeProd: bool,
    dataEvt: nat, spaceEvt: nat,         // sticky, saturating counters
    slots: seq<T>,
    producer: At, consumer: At,
    sent: nat,                           // items published so far
    got: seq<T>,                         // items the consumer finished with
    held: seq<T>)                        // the item read but not yet released

  function Signalled(counter: nat): nat {
    if counter < MAX_EVENT then counter + 1 else counter
  }

  predicate Full<T>(s: State<T>) { Occupancy(s.head, s.tail) == s.capacity }
  predicate Empty<T>(s: State<T>) { Occupancy(s.head, s.tail) == 0 }

  /** A party that cannot move: asleep on an event nobody has signalled. */
  predicate Blocked<T>(s: State<T>, who: Party) {
    match who
    case Producer => s.producer == Wait && s.spaceEvt == 0
    case Consumer => s.consumer == Wait && s.dataEvt == 0
  }

  function ProducerStep<T>(s: State<T>, item: nat -> T): State<T>
    requires PowerOfTwo(s.capacity) && |s.slots| == s.capacity
  {
    match s.producer
    case Check => s.(producer := if Full(s) then Ask else Move)
    case Ask => s.(needWakeProd := true, producer := Recheck)
    case Recheck => s.(producer := if Full(s) then Wait else Move)
    case Wait => if s.spaceEvt == 0 then s else s.(spaceEvt := 0, producer := Check)
    case Move =>
      s.(slots := s.slots[SlotOf(s.head, s.capacity) := item(s.sent)], producer := Publish)
    case Publish => s.(head := Increment(s.head), sent := s.sent + 1, producer := Exchange)
    case Exchange => s.(needWakeCons := false, producer := if s.needWakeCons then Signal else Check)
    case Signal => s.(dataEvt := Signalled(s.dataEvt), producer := Check)
  }

  function ConsumerStep<T>(s: State<T>): State<T>
    requires PowerOfTwo(s.capacity) && |s.slots| == s.capacity
  {
    match s.consumer
    case Check => s.(consumer := if Empty(s) then Ask else Move)
    case Ask => s.(needWakeCons := true, consumer := Recheck)
    case Recheck => s.(consumer := if Empty(s) then Wait else Move)
    case Wait => if s.dataEvt == 0 then s else s.(dataEvt := 0, consumer := Check)
    case Move =>
      s.(held := [s.slots[SlotOf(s.tail, s.capacity)]], consumer := Publish)
    case Publish => s.(tail := Increment(s.tail), got := s.got + s.held, held := [], consumer := Exchange)
    case Exchange => s.(needWakeProd := false, consumer := if s.needWakeProd then Signal else Check)
    case Signal => s.(spaceEvt := Signalled(s.spaceEvt), consumer := Check)
  }

  function Step<T>(s: State<T>, who: Party, item: nat -> T): State<T>
    requires PowerOfTwo(s.capacity) && |s.slots| == s.capacity
  {
    if who == Producer then ProducerStep(s, item) else ConsumerStep(s)
  }

  /** A fresh ring over `slots`, whatever they hold. */
  function Fresh<T>(slots: seq<T>): State<T> {
    State(|slots|, 0, 0, false, false, 0, 0, slots, Check, Check, 0, [], [])
  }

  // ------------------------------------------------------------------
  // Safety
  // ------------------------------------------------------------------

  ghost predicate Counts<T>(s: State<T>) {
    var t := |s.got|;
    && LegalCapacity(s.capacity) && |s.slots| == s.capacity
    && t <= s.sent <= t + s.capacity
    && s.head == s.sent % WORD && s.tail == t % WORD
    && (s.producer in {Move, Publish} ==> s.sent < t + s.capacity)
    && (s.consumer in {Move, Publish} ==> t < s.sent)
    && |s.held| == (if s.consumer == Publish then 1 else 0)
  }

  ghost predicate Contents<T>(s: State<T>, item: nat -> T)
    requires Counts(s)
  {
    var t := |s.got|;
    && (forall i :: 0 <= i < t ==> s.got[i] == item(i))
    && (forall i :: t <= i < s.sent ==> s.slots[SlotOf(i % WORD, s.capacity)] == item(i))
    && (s.producer == Publish ==> s.slots[SlotOf(s.head, s.capacity)] == item(s.sent))
    && (s.consumer == Publish ==> s.held[0] == item(t))
  }

  /** No wake-up is ever lost, from either side. */
  ghost predicate Awake<T>(s: State<T>) {
    && (s.consumer in {Recheck, Wait} ==> s.needWakeCons || s.dataEvt > 0 || s.producer == Signal)
    && (s.producer in {Recheck, Wait} ==> s.needWakeProd || s.spaceEvt > 0 || s.consumer == Signal)
    && (Blocked(s, Consumer) && |s.got| < s.sent ==>
          s.producer == Signal || (s.producer == Exchange && s.needWakeCons))
    && (Blocked(s, Producer) && s.sent < |s.got| + s.capacity ==>
          s.consumer == Signal || (s.consumer == Exchange && s.needWakeProd))
  }

  ghost predicate Inv<T>(s: State<T>, item: nat -> T) { Counts(s) && Contents(s, item) && Awake(s) }

  lemma QuotientsDiffer(i: nat, j: nat, n: nat)
    requires i < j < i + n
    ensures i % n != j % n
  {
    var a, b := i / n, j / n;
    assert i == a * n + i % n && j == b * n + j % n;
    assert (b - a) * n == b * n - a * n;
    MultipleBounds(b - a, n);
  }

  /** Two live indices less than a capacity apart fall in different slots. */
  lemma SlotsApart(i: nat, j: nat, capacity: nat)
    requires LegalCapacity(capacity) && i < j < i + capacity
    ensures SlotOf(i % WORD, capacity) != SlotOf(j % WORD, capacity)
  {
    WrapKeepsSlot(i, capacity);
    WrapKeepsSlot(j, capacity);
    QuotientsDiffer(i, j, capacity);
  }

  lemma WordsTellOccupancy<T>(s: State<T>)
    requires Counts(s)
    ensures Occupancy(s.head, s.tail) == s.sent - |s.got|
    ensures Increment(s.head) == (s.sent + 1) % WORD
    ensures Increment(s.tail) == (|s.got| + 1) % WORD
  {
    WrapKeepsDifference(s.sent, |s.got|);
  }

  lemma FullTells<T>(s: State<T>)
    requires Counts(s)
    ensures Full(s) <==> s.sent == |s.got| + s.capacity
    ensures Empty(s) <==> s.sent == |s.got|
  {
    WordsTellOccupancy(s);
  }

  lemma ProducerKeepsCounts<T>(s: State<T>, item: nat -> T)
    requires Counts(s)
    ensures Counts(ProducerStep(s, item))
  {
    if s.producer == Publish { WordsTellOccupancy(s); } else { FullTells(s); }
  }

  lemma ConsumerKeepsCounts<T>(s: State<T>)
    requires Counts(s)
    ensures Counts(ConsumerStep(s))
  {
    if s.consumer == Publish { WordsTellOccupancy(s); } else { FullTells(s); }
  }

  /** Writing the free slot at `head` leaves every unread slot alone. */
  lemma ProducerKeepsContents<T>(s: State<T>, item: nat -> T)
    requires Counts(s) && Counts(ProducerStep(s, item)) && Contents(s, item)
    ensures Contents(ProducerStep(s, item), item)
  {
    if s.producer == Move {
      forall i | |s.got| <= i < s.sent
        ensures SlotOf(i % WORD, s.capacity) != SlotOf(s.head, s.capacity)
      {
        SlotsApart(i, s.sent, s.capacity);
      }
    }
  }

  lemma ConsumerKeepsContents<T>(s: State<T>, item: nat -> T)
    requires Counts(s) && Counts(ConsumerStep(s)) && Contents(s, item)
    ensures Contents(ConsumerStep(s), item)
  {
  }

  lemma ProducerKeepsAwake<T>(s: State<T>, item: nat -> T)
    requires PowerOfTwo(s.capacity) && |s.slots| == s.capacity
    requires Occupancy(s.head, s.tail) == s.sent - |s.got|
    requires Awake(s)
    ensures Awake(ProducerStep(s, item))
  {
  }

  lemma ConsumerKeepsAwake<T>(s: State<T>)
    requires PowerOfTwo(s.capacity) && |s.slots| == s.capacity
    requires Occupancy(s.head, s.tail) == s.sent - |s.got|
    requires s.consumer == Publish ==> |s.held| == 1
    requires Awake(s)
    ensures Awake(ConsumerStep(s))
  {
  }

  lemma StepKeepsInv<T>(s: State<T>, who: Party, item: nat -> T)
    requires Inv(s, item)
    ensures Inv(Step(s, who, item), item)
  {
    WordsTellOccupancy(s);
    if who == Producer {
      ProducerKeepsCounts(s, item);
      ProducerKeepsContents(s, item);
      ProducerKeepsAwake(s, item);
    } else {
      ConsumerKeepsCounts(s);
      ConsumerKeepsContents(s, item);
      ConsumerKeepsAwake(s);
    }
  }

  /** The state after a schedule, oldest step first. */
  ghost function Run<T>(s: State<T>, schedule: seq<Party>, item: nat -> T): State<T>
    requires Inv(s, item)
    ensures Inv(Run(s, schedule, item), item)
    decreases |schedule|
  {
    if schedule == [] then s
    else
      StepKeepsInv(s, schedule[0], item);
      Run(Step(s, schedule[0], item), schedule[1..], item)
  }

  lemma FreshIsInv<T>(slots: seq<T>, item: nat -> T)
    requires LegalCapacity(|slots|)
    ensures Inv(Fresh(slots), item)
  {
  }

  /**
   Over every interleaving: what the consumer has is a prefix of what the
   producer sends, the occupancy either side computes is the true one and at
   most the capacity, and every unread slot still holds its item.
   */
  lemma Safety<T>(slots: seq<T>, schedule: seq<Party>, item: nat -> T)
    requires LegalCapacity(|slots|)
    ensures Inv(Fresh(slots), item)
    ensures
      var s := Run(Fresh(slots), schedule, item);
      && |s.got| <= s.sent && (forall i :: 0 <= i < |s.got| ==> s.got[i] == item(i))
      && Occupancy(s.head, s.tail) == s.sent - |s.got| <= s.capacity
      && (forall i :: |s.got| <= i < s.sent ==> s.slots[SlotOf(i % WORD, s.capacity)] == item(i))
  {
    FreshIsInv(slots, item);
    var s := Run(Fresh(slots), schedule, item);
    WrapKeepsDifference(s.sent, |s.got|);
  }

  // ------------------------------------------------------------------
  // Wake-ups and progress
  // ------------------------------------------------------------------

  /**
   A sleeping consumer means an empty ring, or a producer whose exchange or
   signal is still to come; the producer's side is symmetric; and the two are
   never asleep for good together.
   */
  lemma NoLostWakeup<T>(slots: seq<T>, schedule: seq<Party>, item: nat -> T)
    requires LegalCapacity(|slots|)
    ensures Inv(Fresh(slots), item)
    ensures
      var s := Run(Fresh(slots), schedule, item);
      && (Blocked(s, Consumer) ==> Empty(s) || s.producer in {Exchange, Signal})
      && (Blocked(s, Producer) ==> Full(s) || s.consumer in {Exchange, Signal})
      && !(Blocked(s, Producer) && Blocked(s, Consumer))
  {
    FreshIsInv(slots, item);
    var s := Run(Fresh(slots), schedule, item);
    WrapKeepsDifference(s.sent, |s.got|);
  }

  /** How far a party is from its next publish, were nothing to interrupt it. */
  function Distance(at: At): nat {
    match at
    case Exchange => 9
    case Signal => 8
    case Check => 7
    case Ask => 6
    case Recheck => 5
    case Wait => 4
    case Move => 3
    case Publish => 2
  }

  function Wakes(event: nat, other: At): nat {
    (if event > 0 then 1 else 0) + (if other in {Exchange, Signal} then 1 else 0)
  }

  /** Strictly decreased by every effective step that publishes nothing. */
  function Rank<T>(s: State<T>): nat {
    Distance(s.producer) + 4 * Wakes(s.spaceEvt, s.consumer) +
    Distance(s.consumer) + 4 * Wakes(s.dataEvt, s.producer)
  }

  const BOUND: nat := 35

  function Transfers<T>(s: State<T>): nat { s.sent + |s.got| }

  lemma ProducerLowersRank<T>(s: State<T>, item: nat -> T)
    requires PowerOfTwo(s.capacity) && |s.slots| == s.capacity
    requires !Blocked(s, Producer)
    ensures
      var s' := ProducerStep(s, item);
      if s.producer == Publish
      then Transfers(s') == Transfers(s) + 1 && Rank(s') < Rank(s) + BOUND
      else Transfers(s') == Transfers(s) && Rank(s') < Rank(s)
  {
  }

  lemma ConsumerLowersRank<T>(s: State<T>)
    requires PowerOfTwo(s.capacity) && |s.slots| == s.capacity
    requires s.consumer == Publish ==> |s.held| == 1
    requires !Blocked(s, Consumer)
    ensures
      var s' := ConsumerStep(s);
      if s.consumer == Publish
      then Transfers(s') == Transfers(s) + 1 && Rank(s') < Rank(s) + BOUND
      else Transfers(s') == Transfers(s) && Rank(s') < Rank(s)
  {
  }

  lemma StepMakesProgress<T>(s: State<T>, who: Party, item: nat -> T)
    requires PowerOfTwo(s.capacity) && |s.slots| == s.capacity
    requires s.consumer == Publish ==> |s.held| == 1
    requires !Blocked(s, who)
    ensures
      var s' := Step(s, who, item);
      BOUND * Transfers(s') - Rank(s') > BOUND * Transfers(s) - Rank(s)
  {
    if who == Producer { ProducerLowersRank(s, item); } else { ConsumerLowersRank(s); }
  }

  /** The steps of a schedule that did not find their party asleep. */
  ghost function Effective<T>(s: State<T>, schedule: seq<Party>, item: nat -> T): nat
    requires Inv(s, item)
    decreases |schedule|
  {
    if schedule == [] then 0
    else
      StepKeepsInv(s, schedule[0], item);
      (if Blocked(s, schedule[0]) then 0 else 1)
        + Effective(Step(s, schedule[0], item), schedule[1..], item)
  }

  lemma {:induction false} EffectiveStepsTransfer<T>(s: State<T>, schedule: seq<Party>, item: nat -> T)
    requires Inv(s, item)
    ensures
      var s' := Run(s, schedule, item);
      BOUND * Transfers(s') - Rank(s') >= BOUND * Transfers(s) - Rank(s) + Effective(s, schedule, item)
    decreases |schedule|
  {
    if schedule != [] {
      StepKeepsInv(s, schedule[0], item);
      EffectiveStepsTransfer(Step(s, schedule[0], item), schedule[1..], item);
      if !Blocked(s, schedule[0]) { StepMakesProgress(s, schedule[0], item); }
    }
  }

  /**
   Progress, whatever the scheduler does: some party can always move, and every
   run delivers items in proportion to the steps it did not spend asleep.
   */
  lemma Progress<T>(slots: seq<T>, schedule: seq<Party>, item: nat -> T)
    requires LegalCapacity(|slots|)
    ensures Inv(Fresh(slots), item)
    ensures
      var s := Run(Fresh(slots), schedule, item);
      && (exists who :: !Blocked(s, who))
      && Effective(Fresh(slots), schedule, item) <= BOUND * (2 * |s.got| + s.capacity + 1)
  {
    FreshIsInv(slots, item);
    var start := Fresh(slots);
    var s := Run(start, schedule, item);
    NoLostWakeup(slots, schedule, item);
    assert !Blocked(s, Producer) || !Blocked(s, Consumer);
    EffectiveStepsTransfer(start, schedule, item);
    assert Transfers(start) == 0 && Rank(start) == 14;
  }

  // ------------------------------------------------------------------
  // Signals are asked for
  // ------------------------------------------------------------------

  function Stands<T>(s: State<T>, who: Party): At { if who == Producer then s.producer else s.consumer }

  function Other(who: Party): Party { if who == Producer then Consumer else Producer }

  /** Whether the party whose turn it is moves, and from there. */
  function Moves<T>(s: State<T>, turn: Party, who: Party, at: At): nat {
    if turn == who && Stands(s, who) == at && !Blocked(s, who) then 1 else 0
  }

  /** How many steps of a schedule a party took from one place of its list. */
  ghost function Taken<T>(s: State<T>, schedule: seq<Party>, item: nat -> T, who: Party, at: At): nat
    requires Inv(s, item)
    decreases |schedule|
  {
    if schedule == [] then 0
    else
      StepKeepsInv(s, schedule[0], item);
      Moves(s, schedule[0], who, at) + Taken(Step(s, schedule[0], item), schedule[1..], item, who, at)
  }

  /** What a party has asked for and not been given: its flag is up, or the other is about to signal it. */
  function Asked<T>(s: State<T>, who: Party): nat {
    (if (if who == Producer then s.needWakeProd else s.needWakeCons) then 1 else 0)
      + if Stands(s, Other(who)) == Signal then 1 else 0
  }

  /** Whether its event is up. */
  function Given<T>(s: State<T>, who: Party): nat {
    if (if who == Producer then s.spaceEvt else s.dataEvt) > 0 then 1 else 0
  }

  /** A signal to come was asked for. */
  lemma StepAsks<T>(s: State<T>, turn: Party, item: nat -> T, who: Party)
    requires PowerOfTwo(s.capacity) && |s.slots| == s.capacity
    ensures Asked(Step(s, turn, item), who) + Moves(s, turn, Other(who), Signal) <= Asked(s, who) + Moves(s, turn, who, Ask)
  {
  }

  /** An event that is up was signalled. */
  lemma StepGives<T>(s: State<T>, turn: Party, item: nat -> T, who: Party)
    requires PowerOfTwo(s.capacity) && |s.slots| == s.capacity
    ensures Given(Step(s, turn, item), who) + Moves(s, turn, who, Wait) <= Given(s, who) + Moves(s, turn, Other(who), Signal)
  {
  }

  lemma {:induction false} RunAnswers<T>(s: State<T>, schedule: seq<Party>, item: nat -> T, who: Party)
    requires Inv(s, item)
    ensures
      var s' := Run(s, schedule, item);
      && Asked(s', who) + Taken(s, schedule, item, Other(who), Signal) <= Asked(s, who) + Taken(s, schedule, item, who, Ask)
      && Given(s', who) + Taken(s, schedule, item, who, Wait) <= Given(s, who) + Taken(s, schedule, item, Other(who), Signal)
    decreases |schedule|
  {
    if schedule != [] {
      StepKeepsInv(s, schedule[0], item);
      StepAsks(s, schedule[0], item, who);
      StepGives(s, schedule[0], item, who);
      RunAnswers(Step(s, schedule[0], item), schedule[1..], item, who);
    }
  }

  /**
   Over every interleaving, a party is signalled at most as often as it asked to
   be, and wakes at most as often as it was signalled: what nobody waits for
   costs no signal.
   */
  lemma SignalsAreAsked<T>(slots: seq<T>, schedule: seq<Party>, item: nat -> T, who: Party)
    requires LegalCapacity(|slots|)
    ensures Inv(Fresh(slots), item)
    ensures
      var start := Fresh(slots);
      Taken(start, schedule, item, who, Wait) <= Taken(start, schedule, item, Other(who), Signal) <= Taken(start, schedule, item, who, Ask)
  {
    FreshIsInv(slots, item);
    RunAnswers(Fresh(slots), schedule, item, who);
  }
}
