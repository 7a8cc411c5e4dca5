/** The lock-free ring of src/core/thread/queue.h: one producer and one consumer thread, interleaved at
    the grain of single loads and stores, under release/acquire memory. An atomic index is the list of
    all stores made to it (its modification order); an acquire load of the other thread's index may
    return any of those no older than the last one that thread saw. The slots are plain memory, so
    every access to one is checked for a data race. */
module SpscRing {
  import opened Types

  /** A store to an atomic index: the value, and how many slot accesses the storing thread had made
      before it, which is what a release store publishes to whoever acquires it. */
  datatype Store = Store(value: nat, clock: nat)

  /** A slot with the stamp of its latest write by the producer and its latest take by the consumer. */
  datatype Slot<V> = Slot(val: V, written: nat, taken: nat)

  /** What an acquire load read: the position in the modification order, whether that was the newest
      store, and how many elements the queue held at that moment. Never read by a guard except `entry`. */
  datatype Load = Load(entry: nat, newest: bool, occupancy: nat)

  datatype Producer<V> =
    | PIdle
    | PLoadHead(val: V)
    | PLoadTail(val: V, head: nat, load: Load)
    | PTest(val: V, head: nat, tail: nat, load: Load)
    | PWrite(val: V, tail: nat)
    | PStore(val: V, tail: nat)

  datatype Consumer<V> =
    | CIdle
    | CLoadHead
    | CLoadTail(head: nat)
    | CTest(head: nat, tail: nat, load: Load)
    | CTake(head: nat)
    | CStore(out: V, head: nat)

  datatype State<V> = State(
    slots: seq<Slot<V>>,
    heads: seq<Store>,     // modification order of m_head
    tails: seq<Store>,     // modification order of m_tail
    prod: Producer<V>,
    cons: Consumer<V>,
    prodView: nat,         // newest entry of heads the producer has seen
    consView: nat,         // newest entry of tails the consumer has seen
    writes: nat,           // slot writes made by the producer
    takes: nat,            // slot takes made by the consumer
    prodKnows: nat,        // takes that happen before the producer's next step
    consKnows: nat,        // writes that happen before the consumer's next step
    raced: bool,           // two unordered accesses to one slot have occurred
    pushed: seq<V>,        // values whose push returned true
    popped: seq<V>         // values returned by pop
  )

  datatype Action<V> =
    | CallPush(val: V)
    | LoadHeadAcquire(entry: nat)
    | LoadTailOwn
    | TestFull
    | WriteSlot
    | StoreTail
    | CallPop
    | LoadHeadOwn
    | LoadTailAcquire(entry: nat)
    | TestEmpty
    | TakeSlot(left: V)    // `left` is whatever the move leaves behind
    | StoreHead

  /** The remainder of k by the capacity, by repeated subtraction (see WrapIsRemainder). */
  function Wrap(k: nat, cap: nat): (r: nat)
    requires cap > 0
    ensures r < cap
  {
    if k < cap then k else Wrap(k - cap, cap)
  }

  lemma {:induction false} WrapIsRemainder(k: nat, cap: nat)
    requires cap > 0
    ensures Wrap(k, cap) == k % cap
  {
    if k >= cap {
      WrapIsRemainder(k - cap, cap);
      assert k % cap == (k - cap) % cap by {
        var q := k / cap;
        assert k - cap == (q - 1) * cap + k % cap;
        DivUnique(k - cap, cap, q - 1, k % cap);
      }
    }
  }

  lemma {:induction false} MulAtLeast(n: int, d: int)
    requires n > 0 && d > 0
    ensures n * d >= d && (-n) * d <= -d
  {
    if n > 1 {
      MulAtLeast(n - 1, d);
      assert n * d == (n - 1) * d + d;
    }
  }

  /** The only multiple of d within d of nothing is nothing. */
  lemma NoMultiple(n: int, d: int)
    requires d > 0 && -d < n * d < d
    ensures n == 0
  {
    if n >= 1 {
      MulAtLeast(n, d);
    } else if n <= -1 {
      MulAtLeast(-n, d);
    }
  }

  lemma DivUnique(x: int, d: int, q: int, r: int)
    requires d > 0 && 0 <= r < d && x == q * d + r
    ensures x / d == q && x % d == r
  {
    var p, m := x / d, x % d;
    assert x == p * d + m;
    assert (p - q) * d == p * d - q * d;
    NoMultiple(p - q, d);
  }

  /** How far index `to` lies ahead of index `from` around the ring. */
  function Span(from: nat, to: nat, cap: nat): nat {
    if from <= to then to - from else if from <= to + cap then to + cap - from else 0
  }

  function Max(a: nat, b: nat): nat { if a < b then b else a }

  predicate Shaped<V>(s: State<V>) {
    |s.slots| > 0 && |s.heads| > 0 && |s.tails| > 0
  }

  function Head<V>(s: State<V>): nat requires Shaped(s) { s.heads[|s.heads| - 1].value }
  function Tail<V>(s: State<V>): nat requires Shaped(s) { s.tails[|s.tails| - 1].value }

  /** The element `i` places after the head; one already moved out but not yet released is still in the
      consumer's hands. */
  function Cell<V>(s: State<V>, i: nat): V
    requires Shaped(s)
  {
    if i == 0 && s.cons.CStore? then s.cons.out else s.slots[Wrap(Head(s) + i, |s.slots|)].val
  }

  /** The elements the two indices currently delimit, read out of the slots. */
  function Contents<V>(s: State<V>): (c: seq<V>)
    requires Shaped(s)
  {
    seq(Span(Head(s), Tail(s), |s.slots|), (i: nat) => Cell(s, i))
  }

  predicate Enabled<V>(s: State<V>, a: Action<V>) {
    Shaped(s) &&
    match a
    case CallPush(_) => s.prod.PIdle?
    case LoadHeadAcquire(entry) => s.prod.PLoadHead? && s.prodView <= entry < |s.heads|
    case LoadTailOwn => s.prod.PLoadTail?
    case TestFull => s.prod.PTest?
    case WriteSlot => s.prod.PWrite? && s.prod.tail < |s.slots|
    case StoreTail => s.prod.PStore?
    case CallPop => s.cons.CIdle?
    case LoadHeadOwn => s.cons.CLoadHead?
    case LoadTailAcquire(entry) => s.cons.CLoadTail? && s.consView <= entry < |s.tails|
    case TestEmpty => s.cons.CTest?
    case TakeSlot(_) => s.cons.CTake? && s.cons.head < |s.slots|
    case StoreHead => s.cons.CStore?
  }

  /** push gives up when one past the tail is the head it loaded. */
  function AfterTest<V>(p: Producer<V>, cap: nat): Producer<V>
    requires p.PTest? && cap > 0
  {
    if p.head == Wrap(p.tail + 1, cap) then PIdle else PWrite(p.val, p.tail)
  }

  function Step<V>(s: State<V>, a: Action<V>): State<V>
    requires Enabled(s, a)
  {
    var cap := |s.slots|;
    match a
    case CallPush(val) => s.(prod := PLoadHead(val))
    case LoadHeadAcquire(entry) =>
      var store := s.heads[entry];
      s.(prod := PLoadTail(s.prod.val, store.value, Load(entry, entry == |s.heads| - 1, |Contents(s)|)),
         prodView := entry, prodKnows := Max(s.prodKnows, store.clock))
    case LoadTailOwn => s.(prod := PTest(s.prod.val, s.prod.head, Tail(s), s.prod.load))
    case TestFull =>
      s.(prod := AfterTest(s.prod, cap))
    case WriteSlot =>
      var was := s.slots[s.prod.tail];
      s.(slots := s.slots[s.prod.tail := Slot(s.prod.val, s.writes + 1, was.taken)],
         writes := s.writes + 1,
         raced := s.raced || was.taken > s.prodKnows,
         prod := PStore(s.prod.val, s.prod.tail))
    case StoreTail =>
      s.(tails := s.tails + [Store(Wrap(s.prod.tail + 1, cap), s.writes)],
         pushed := s.pushed + [s.prod.val],
         prod := PIdle)
    case CallPop => s.(cons := CLoadHead)
    case LoadHeadOwn => s.(cons := CLoadTail(Head(s)))
    case LoadTailAcquire(entry) =>
      var store := s.tails[entry];
      s.(cons := CTest(s.cons.head, store.value, Load(entry, entry == |s.tails| - 1, |Contents(s)|)),
         consView := entry, consKnows := Max(s.consKnows, store.clock))
    case TestEmpty =>
      if s.cons.head == s.cons.tail then s.(cons := CIdle) else s.(cons := CTake(s.cons.head))
    case TakeSlot(left) =>
      var was := s.slots[s.cons.head];
      s.(slots := s.slots[s.cons.head := Slot(left, was.written, s.takes + 1)],
         takes := s.takes + 1,
         raced := s.raced || was.written > s.consKnows,
         cons := CStore(was.val, s.cons.head))
    case StoreHead =>
      s.(heads := s.heads + [Store(Wrap(s.cons.head + 1, cap), s.takes)],
         popped := s.popped + [s.cons.out],
         cons := CIdle)
  }

  /** A fresh queue over slots that hold anything. */
  function Init<V>(blank: seq<V>): State<V> {
    State(seq(|blank|, i requires 0 <= i < |blank| => Slot(blank[i], 0, 0)),
          [Store(0, 0)], [Store(0, 0)], PIdle, CIdle, 0, 0, 0, 0, 0, 0, false, [], [])
  }

  /** The state an interleaving leads to, None if it is not one the two threads can take. */
  function Exec<V>(blank: seq<V>, acts: seq<Action<V>>): Option<State<V>> {
    if acts == [] then Some(Init(blank))
    else
      var last := |acts| - 1;
      match Exec(blank, acts[..last])
      case None => None
      case Some(s) => if Enabled(s, acts[last]) then Some(Step(s, acts[last])) else None
  }

  // ---- the inductive invariant ----

  function H<V>(s: State<V>): nat requires Shaped(s) { |s.heads| - 1 }
  function T<V>(s: State<V>): nat requires Shaped(s) { |s.tails| - 1 }

  /** Store number k of an index is k modulo the capacity, released after exactly k slot accesses. */
  ghost predicate Counts(stores: seq<Store>, cap: nat)
    requires cap > 0
  {
    forall k :: 0 <= k < |stores| ==> stores[k] == Store(Wrap(k, cap), k)
  }

  /** What the producer may rely on at each point of push, t pushes being complete. */
  ghost predicate ProducerOk<V>(prod: Producer<V>, slots: seq<Slot<V>>, t: nat, view: nat, writes: nat)
    requires |slots| > 0
  {
    var cap := |slots|;
    && writes == t + (if prod.PStore? then 1 else 0)
    && match prod
       case PIdle => true
       case PLoadHead(_) => true
       case PLoadTail(_, head, load) => LoadedHead(head, load, cap, t, view)
       case PTest(_, head, tail, load) => LoadedHead(head, load, cap, t, view) && tail == Wrap(t, cap)
       case PWrite(_, tail) => tail == Wrap(t, cap) && t + 1 < view + cap
       case PStore(val, tail) =>
         && tail == Wrap(t, cap) && t + 1 < view + cap
         && slots[tail].val == val && slots[tail].written == t + 1
  }

  ghost predicate LoadedHead(head: nat, load: Load, cap: nat, t: nat, view: nat)
    requires cap > 0
  {
    && load.entry == view && head == Wrap(view, cap)
    && load.occupancy <= t - view
    && (load.newest ==> load.occupancy == t - view)
  }

  /** What the consumer may rely on at each point of pop, h pops being complete. */
  ghost predicate ConsumerOk<V>(cons: Consumer<V>, cap: nat, pushed: seq<V>, h: nat, view: nat, takes: nat)
    requires cap > 0
  {
    && takes == h + (if cons.CStore? then 1 else 0)
    && match cons
       case CIdle => true
       case CLoadHead => true
       case CLoadTail(head) => head == Wrap(h, cap)
       case CTest(head, tail, load) =>
         && head == Wrap(h, cap) && tail == Wrap(view, cap) && load.entry == view
         && view - h <= load.occupancy
         && (load.newest ==> load.occupancy == view - h)
       case CTake(head) => head == Wrap(h, cap) && h < view
       case CStore(out, head) => head == Wrap(h, cap) && h < view && h < |pushed| && out == pushed[h]
  }

  /** The live window holds what was pushed for each index, and the slots ahead of it were last taken a
      full lap earlier. */
  ghost predicate SlotsOk<V>(slots: seq<Slot<V>>, pushed: seq<V>, takes: nat)
    requires |slots| > 0
  {
    var cap := |slots|;
    && (forall k {:trigger pushed[k]} :: takes <= k < |pushed| ==>
          slots[Wrap(k, cap)].val == pushed[k] && slots[Wrap(k, cap)].written == k + 1)
    && (forall k {:trigger TakenBefore(slots[Wrap(k, cap)], k, cap)} :: takes <= k < takes + cap ==>
          TakenBefore(slots[Wrap(k, cap)], k, cap))
  }

  /** Ghost index k is at least one lap after the last take of the slot. */
  predicate TakenBefore<V>(slot: Slot<V>, k: nat, cap: nat) {
    slot.taken == 0 || slot.taken + cap <= k + 1
  }

  ghost predicate Inv<V>(s: State<V>) {
    && Shaped(s)
    && var cap := |s.slots|;
       && Counts(s.heads, cap) && Counts(s.tails, cap)
       && s.prodView <= H(s) <= s.consView <= T(s) < s.prodView + cap
       && s.prodKnows == s.prodView && s.consKnows == s.consView
       && ProducerOk(s.prod, s.slots, T(s), s.prodView, s.writes)
       && ConsumerOk(s.cons, cap, s.pushed, H(s), s.consView, s.takes)
       && SlotsOk(s.slots, s.pushed, s.takes)
       && !s.raced
       && |s.pushed| == T(s) && |s.popped| == H(s) && s.popped == s.pushed[..H(s)]
  }

  /** Two counters less than one lap apart share a slot only when they are equal. */
  lemma {:induction false} Window(a: nat, b: nat, cap: nat)
    requires cap > 0 && a <= b < a + cap
    ensures Wrap(a, cap) == Wrap(b, cap) <==> a == b
  {
    if a >= cap {
      Window(a - cap, b - cap, cap);
    }
  }

  lemma {:induction false} WrapSum(h: nat, i: nat, cap: nat)
    requires cap > 0
    ensures Wrap(Wrap(h, cap) + i, cap) == Wrap(h + i, cap)
  {
    if h >= cap {
      WrapSum(h - cap, i, cap);
    }
  }

  /** The distance between two indices around the ring is the difference of their counters. */
  lemma {:induction false} Distance(h: nat, t: nat, cap: nat)
    requires cap > 0 && h <= t < h + cap
    ensures t - h == Span(Wrap(h, cap), Wrap(t, cap), cap)
  {
    if h >= cap {
      Distance(h - cap, t - cap, cap);
    }
  }

  /** The full test, made on residues, is exact for the head value that was loaded. */
  lemma FullTest(head: nat, tail: nat, seen: nat, t: nat, cap: nat)
    requires cap > 0 && seen <= t < seen + cap
    requires head == Wrap(seen, cap) && tail == Wrap(t, cap)
    ensures head == Wrap(tail + 1, cap) <==> t + 1 == seen + cap
  {
    WrapSum(t, 1, cap);
    if t + 1 < seen + cap {
      Window(seen, t + 1, cap);
    }
  }

  lemma CellPending<V>(s: State<V>, i: nat)
    requires Inv(s) && i < T(s) - H(s)
    ensures Cell(s, i) == s.pushed[H(s) + i]
  {
    hide Wrap;
    WrapSum(H(s), i, |s.slots|);
    assert Wrap(Head(s) + i, |s.slots|) == Wrap(H(s) + i, |s.slots|);
  }

  /** What the indices delimit is exactly what was pushed and not yet popped. */
  lemma ContentsPending<V>(s: State<V>)
    requires Inv(s)
    ensures Contents(s) == s.pushed[H(s)..T(s)]
  {
    hide Wrap;
    Distance(H(s), T(s), |s.slots|);
    assert s.heads[H(s)] == Store(Wrap(H(s), |s.slots|), H(s));
    assert s.tails[T(s)] == Store(Wrap(T(s), |s.slots|), T(s));
    forall i: nat | i < T(s) - H(s) ensures Cell(s, i) == s.pushed[H(s) + i] {
      CellPending(s, i);
    }
  }

  lemma InitInv<V>(blank: seq<V>)
    requires blank != []
    ensures Inv(Init(blank))
  {
  }

  /** Filling the free slot at counter |pushed| leaves the live window alone. */
  lemma SlotFilled<V>(slots: seq<Slot<V>>, pushed: seq<V>, takes: nat, val: V, stamp: nat)
    requires |slots| > 0 && SlotsOk(slots, pushed, takes) && |pushed| < takes + |slots|
    ensures var j := Wrap(|pushed|, |slots|);
      SlotsOk(slots[j := Slot(val, stamp, slots[j].taken)], pushed, takes)
  {
    hide Wrap;
    var cap, j := |slots|, Wrap(|pushed|, |slots|);
    var slots' := slots[j := Slot(val, stamp, slots[j].taken)];
    forall k | takes <= k < |pushed|
      ensures slots'[Wrap(k, cap)].val == pushed[k] && slots'[Wrap(k, cap)].written == k + 1
    {
      Window(k, |pushed|, cap);
    }
    forall k | takes <= k < takes + cap ensures TakenBefore(slots'[Wrap(k, cap)], k, cap) {
      assert TakenBefore(slots[Wrap(k, cap)], k, cap);
    }
  }

  /** The slot a tested push writes was last taken before the head value it loaded was stored. */
  lemma SlotFree<V>(slots: seq<Slot<V>>, pushed: seq<V>, takes: nat, view: nat)
    requires |slots| > 0 && SlotsOk(slots, pushed, takes)
    requires takes <= |pushed| < takes + |slots| && |pushed| + 1 < view + |slots|
    ensures slots[Wrap(|pushed|, |slots|)].taken <= view
  {
    assert TakenBefore(slots[Wrap(|pushed|, |slots|)], |pushed|, |slots|);
  }

  lemma WriteSlotInv<V>(s: State<V>)
    requires Inv(s) && Enabled(s, WriteSlot)
    ensures Inv(Step(s, WriteSlot))
  {
    hide Wrap, Counts, SlotsOk;
    var cap, t := |s.slots|, T(s);
    SlotFree(s.slots, s.pushed, s.takes, s.prodView);
    SlotFilled(s.slots, s.pushed, s.takes, s.prod.val, s.writes + 1);
    var slots' := s.slots[s.prod.tail := Slot(s.prod.val, s.writes + 1, s.slots[s.prod.tail].taken)];
    assert Step(s, WriteSlot) ==
      s.(slots := slots', writes := s.writes + 1, prod := PStore(s.prod.val, s.prod.tail));
    assert ProducerOk(PStore(s.prod.val, s.prod.tail), slots', t, s.prodView, s.writes + 1);
    assert SlotsOk(slots', s.pushed, s.takes);
  }

  /** Taking the oldest live slot frees it for the counter one lap on. */
  lemma SlotTaken<V>(slots: seq<Slot<V>>, pushed: seq<V>, takes: nat, left: V)
    requires |slots| > 0 && SlotsOk(slots, pushed, takes) && takes < |pushed| <= takes + |slots|
    ensures var j := Wrap(takes, |slots|);
      SlotsOk(slots[j := Slot(left, slots[j].written, takes + 1)], pushed, takes + 1)
  {
    var cap, j := |slots|, Wrap(takes, |slots|);
    var slots' := slots[j := Slot(left, slots[j].written, takes + 1)];
    forall k | takes < k < takes + cap ensures Wrap(k, cap) != j {
      Window(takes, k, cap);
    }
    forall k | takes < k < |pushed|
      ensures slots'[Wrap(k, cap)].val == pushed[k] && slots'[Wrap(k, cap)].written == k + 1
    {
      assert k < takes + cap && slots[Wrap(k, cap)].val == pushed[k];
    }
    forall k | takes < k < takes + 1 + cap ensures TakenBefore(slots'[Wrap(k, cap)], k, cap) {
      if k < takes + cap { assert TakenBefore(slots[Wrap(k, cap)], k, cap); }
    }
  }

  lemma TakeSlotInv<V>(s: State<V>, left: V)
    requires Inv(s) && Enabled(s, TakeSlot(left))
    ensures Inv(Step(s, TakeSlot(left)))
  {
    hide Wrap, Counts;
    var cap, h, t := |s.slots|, H(s), T(s);
    SlotTaken(s.slots, s.pushed, s.takes, left);
    assert s.slots[s.cons.head].val == s.pushed[h] && s.slots[s.cons.head].written == h + 1;
    var s' := Step(s, TakeSlot(left));
    assert s.slots[s.cons.head].written <= s.consKnows && !s'.raced;
    assert ProducerOk(s'.prod, s'.slots, t, s'.prodView, s'.writes) by {
      Window(h, t, cap);
    }
    assert ConsumerOk(s'.cons, cap, s'.pushed, h, s'.consView, s'.takes);
  }

  lemma LoadInv<V>(s: State<V>, a: Action<V>)
    requires Inv(s) && Enabled(s, a) && (a.LoadHeadAcquire? || a.LoadTailAcquire?)
    ensures Inv(Step(s, a))
  {
    hide Wrap, SlotsOk, Contents;
    ContentsPending(s);
    if a.LoadHeadAcquire? {
      assert s.heads[a.entry] == Store(Wrap(a.entry, |s.slots|), a.entry);
    } else {
      assert s.tails[a.entry] == Store(Wrap(a.entry, |s.slots|), a.entry);
    }
  }

  lemma TestedProducer<V>(prod: Producer<V>, slots: seq<Slot<V>>, t: nat, view: nat, writes: nat)
    requires |slots| > 0 && prod.PTest? && ProducerOk(prod, slots, t, view, writes) && view <= t < view + |slots|
    ensures ProducerOk(AfterTest(prod, |slots|), slots, t, view, writes)
  {
    FullTest(prod.head, prod.tail, view, t, |slots|);
  }

  lemma TestFullInv<V>(s: State<V>)
    requires Inv(s) && Enabled(s, TestFull)
    ensures Inv(Step(s, TestFull))
  {
    hide Wrap, Counts, SlotsOk;
    TestedProducer(s.prod, s.slots, T(s), s.prodView, s.writes);
    assert Step(s, TestFull) == s.(prod := AfterTest(s.prod, |s.slots|));
  }

  lemma TestEmptyInv<V>(s: State<V>)
    requires Inv(s) && Enabled(s, TestEmpty)
    ensures Inv(Step(s, TestEmpty))
  {
    hide Wrap, Counts, SlotsOk;
    Window(H(s), s.consView, |s.slots|);
  }

  lemma NextStore(stores: seq<Store>, cap: nat)
    requires cap > 0 && |stores| > 0 && Counts(stores, cap)
    ensures Counts(stores + [Store(Wrap(Wrap(|stores| - 1, cap) + 1, cap), |stores|)], cap)
  {
    WrapSum(|stores| - 1, 1, cap);
  }

  lemma SlotPublished<V>(slots: seq<Slot<V>>, pushed: seq<V>, takes: nat, val: V)
    requires |slots| > 0 && SlotsOk(slots, pushed, takes)
    requires var slot := slots[Wrap(|pushed|, |slots|)]; slot.val == val && slot.written == |pushed| + 1
    ensures SlotsOk(slots, pushed + [val], takes)
  {
    var longer := pushed + [val];
    forall k | takes <= k < |longer|
      ensures slots[Wrap(k, |slots|)].val == longer[k] && slots[Wrap(k, |slots|)].written == k + 1
    {
      if k < |pushed| { assert pushed[k] == longer[k]; }
    }
  }

  lemma PushedGrows<V>(cons: Consumer<V>, cap: nat, pushed: seq<V>, val: V, h: nat, view: nat, takes: nat)
    requires cap > 0 && ConsumerOk(cons, cap, pushed, h, view, takes)
    ensures ConsumerOk(cons, cap, pushed + [val], h, view, takes)
  {
  }

  lemma StoreTailInv<V>(s: State<V>)
    requires Inv(s) && Enabled(s, StoreTail)
    ensures Inv(Step(s, StoreTail))
  {
    hide Wrap, Counts, SlotsOk;
    NextStore(s.tails, |s.slots|);
    SlotPublished(s.slots, s.pushed, s.takes, s.prod.val);
    var s' := Step(s, StoreTail);
    assert Counts(s'.tails, |s.slots|) && T(s') == T(s) + 1;
    assert s'.popped == s'.pushed[..H(s)];
    PushedGrows(s.cons, |s.slots|, s.pushed, s.prod.val, H(s), s.consView, s.takes);
  }

  lemma StoreHeadInv<V>(s: State<V>)
    requires Inv(s) && Enabled(s, StoreHead)
    ensures Inv(Step(s, StoreHead))
  {
    hide Wrap, Counts, SlotsOk;
    NextStore(s.heads, |s.slots|);
  }

  lemma LocalInv<V>(s: State<V>, a: Action<V>)
    requires Inv(s) && Enabled(s, a)
    requires a.CallPush? || a.LoadTailOwn? || a.CallPop? || a.LoadHeadOwn?
    ensures Inv(Step(s, a))
  {
    hide Wrap, SlotsOk;
  }

  lemma StepInv<V>(s: State<V>, a: Action<V>)
    requires Inv(s) && Enabled(s, a)
    ensures Inv(Step(s, a))
  {
    if a.LoadHeadAcquire? || a.LoadTailAcquire? { LoadInv(s, a); }
    else if a.TestFull? { TestFullInv(s); }
    else if a.TestEmpty? { TestEmptyInv(s); }
    else if a.WriteSlot? { WriteSlotInv(s); }
    else if a.StoreTail? { StoreTailInv(s); }
    else if a.TakeSlot? { TakeSlotInv(s, a.left); }
    else if a.StoreHead? { StoreHeadInv(s); }
    else { LocalInv(s, a); }
  }

  // ---- main results ----

  /** Every reachable state satisfies the invariant. */
  lemma {:induction false} Reachable<V>(blank: seq<V>, acts: seq<Action<V>>)
    requires blank != []
    ensures Exec(blank, acts).Some? ==> Inv(Exec(blank, acts).value) && |Exec(blank, acts).value.slots| == |blank|
  {
    if acts == [] {
      InitInv(blank);
    } else {
      var last := |acts| - 1;
      Reachable(blank, acts[..last]);
      if Exec(blank, acts).Some? {
        StepInv(Exec(blank, acts[..last]).value, acts[last]);
      }
    }
  }

  /** An atomic bounded queue: pushes and pops take effect one at a time. */
  datatype FifoOp<V> = Enq(val: V) | Deq(val: V)

  function Apply<V(==)>(limit: nat, q: seq<V>, op: FifoOp<V>): Option<seq<V>> {
    match op
    case Enq(v) => if |q| < limit then Some(q + [v]) else None
    case Deq(v) => if |q| > 0 && q[0] == v then Some(q[1..]) else None
  }

  function Replay<V(==)>(limit: nat, ops: seq<FifoOp<V>>): Option<seq<V>> {
    if ops == [] then Some([])
    else
      var last := |ops| - 1;
      match Replay(limit, ops[..last])
      case None => None
      case Some(q) => Apply(limit, q, ops[last])
  }

  /** The point at which an operation takes effect: the tail store for a push, the head store for a pop. */
  function Effect<V>(s: State<V>, a: Action<V>): Option<FifoOp<V>>
    requires Enabled(s, a)
  {
    match a
    case StoreTail => Some(Enq(s.prod.val))
    case StoreHead => Some(Deq(s.cons.out))
    case _ => None
  }

  function Effects<V>(blank: seq<V>, acts: seq<Action<V>>): seq<FifoOp<V>>
    requires Exec(blank, acts).Some?
  {
    if acts == [] then []
    else
      var last := |acts| - 1;
      var before := Effects(blank, acts[..last]);
      match Effect(Exec(blank, acts[..last]).value, acts[last])
      case None => before
      case Some(op) => before + [op]
  }

  /** Only the two index stores touch the histories. */
  lemma Histories<V>(s: State<V>, a: Action<V>)
    requires Enabled(s, a)
    ensures var s' := Step(s, a);
      && Shaped(s')
      && s'.pushed == (if a.StoreTail? then s.pushed + [s.prod.val] else s.pushed)
      && T(s') == T(s) + (if a.StoreTail? then 1 else 0)
      && H(s') == H(s) + (if a.StoreHead? then 1 else 0)
      && |s'.slots| == |s.slots|
  {
  }

  /** The invariant's consequences a step of the queue needs. */
  ghost predicate Pending<V>(s: State<V>) {
    && Shaped(s)
    && H(s) <= T(s) == |s.pushed| && T(s) - H(s) < |s.slots|
    && Contents(s) == s.pushed[H(s)..T(s)]
  }

  lemma InvPending<V>(s: State<V>)
    requires Inv(s)
    ensures Pending(s)
    ensures s.cons.CStore? ==> H(s) < T(s) && s.cons.out == s.pushed[H(s)]
  {
    ContentsPending(s);
  }

  /** One step does to the delimited contents exactly what its effect does to the atomic queue. */
  lemma PendingStep<V>(s: State<V>, a: Action<V>)
    requires Enabled(s, a) && Pending(s) && Pending(Step(s, a))
    requires a.StoreHead? ==> H(s) < T(s) && s.cons.out == s.pushed[H(s)]
    ensures Some(Contents(Step(s, a))) ==
      match Effect(s, a)
      case None => Some(Contents(s))
      case Some(op) => Apply(|s.slots| - 1, Contents(s), op)
  {
    Histories(s, a);
    var h, t := H(s), T(s);
    if a.StoreTail? {
      assert (s.pushed + [s.prod.val])[h..t + 1] == s.pushed[h..t] + [s.prod.val];
    } else if a.StoreHead? {
      assert s.pushed[h..t] == [s.pushed[h]] + s.pushed[h + 1..t];
    }
  }

  /** Refinement: for every interleaving and every choice of stale loads, the successful pushes and pops,
      ordered by their index stores, form a legal history of an atomic FIFO of size capacity - 1, and
      that FIFO then holds what the slots hold. */
  lemma {:induction false} RefinesAtomicFifo<V>(blank: seq<V>, acts: seq<Action<V>>)
    requires blank != [] && Exec(blank, acts).Some?
    ensures Shaped(Exec(blank, acts).value)
    ensures Replay(|blank| - 1, Effects(blank, acts)) == Some(Contents(Exec(blank, acts).value))
  {
    Reachable(blank, acts);
    if acts == [] {
      ContentsPending(Init(blank));
    } else {
      var last := |acts| - 1;
      RefinesAtomicFifo(blank, acts[..last]);
      StepRefines(blank, acts);
      var before, now := Effects(blank, acts[..last]), Effects(blank, acts);
      if now != before {
        assert now[..|now| - 1] == before;
      }
    }
  }

  lemma StepRefines<V>(blank: seq<V>, acts: seq<Action<V>>)
    requires blank != [] && acts != [] && Exec(blank, acts).Some?
    ensures var s := Exec(blank, acts[..|acts| - 1]).value;
      var a := acts[|acts| - 1];
      && Shaped(s) && |s.slots| == |blank| && Shaped(Step(s, a))
      && Some(Contents(Step(s, a))) ==
           match Effect(s, a)
           case None => Some(Contents(s))
           case Some(op) => Apply(|blank| - 1, Contents(s), op)
  {
    hide Inv, Contents, Step;
    var last := |acts| - 1;
    Reachable(blank, acts[..last]);
    Reachable(blank, acts);
    var s := Exec(blank, acts[..last]).value;
    InvPending(s);
    InvPending(Step(s, acts[last]));
    PendingStep(s, acts[last]);
  }

  /** Safety: the values popped are a prefix of the values pushed, fewer than capacity are in flight,
      and no two accesses to a slot are ever unordered. */
  lemma PoppedIsPrefixOfPushed<V>(blank: seq<V>, acts: seq<Action<V>>)
    requires blank != [] && Exec(blank, acts).Some?
    ensures var s := Exec(blank, acts).value;
      s.popped <= s.pushed && |s.pushed| - |s.popped| < |blank| && !s.raced
  {
    Reachable(blank, acts);
  }

  /** Slot exclusivity: when the producer is about to write and the consumer about to take, they are at
      different slots, both inside the ring; the slot taken holds the oldest value not yet popped, and
      every slot of the live window holds the value pushed for its index. */
  lemma SlotExclusive<V>(blank: seq<V>, acts: seq<Action<V>>)
    requires blank != [] && Exec(blank, acts).Some?
    ensures var s := Exec(blank, acts).value;
      && (s.prod.PWrite? ==> s.prod.tail < |s.slots|)
      && (s.cons.CTake? ==> s.cons.head < |s.slots| && |s.popped| < |s.pushed| &&
                            s.slots[s.cons.head].val == s.pushed[|s.popped|])
      && (s.prod.PWrite? && s.cons.CTake? ==> s.prod.tail != s.cons.head)
      && |s.popped| <= s.takes <= |s.popped| + 1 && |s.slots| == |blank|
      && forall k | s.takes <= k < |s.pushed| :: s.slots[k % |blank|].val == s.pushed[k]
  {
    Reachable(blank, acts);
    var s := Exec(blank, acts).value;
    forall k: nat | s.takes <= k < |s.pushed| ensures s.slots[k % |blank|].val == s.pushed[k] {
      WrapIsRemainder(k, |blank|);
    }
    if s.prod.PWrite? && s.cons.CTake? {
      Window(H(s), T(s), |s.slots|);
    }
  }

  lemma FullExact<V>(s: State<V>)
    requires Inv(s) && s.prod.PTest?
    ensures |s.pushed| - s.prod.load.entry < |s.slots|
    ensures Step(s, TestFull).prod.PIdle? <==> |s.pushed| - s.prod.load.entry == |s.slots| - 1
  {
    FullTest(s.prod.head, s.prod.tail, s.prodView, T(s), |s.slots|);
  }

  /** A push fails exactly when the queue was full as of the head value it loaded; if that was the newest
      value then the queue really was full at the load, and a stale value can only overstate occupancy. */
  lemma PushFailsWhenFull<V>(blank: seq<V>, acts: seq<Action<V>>)
    requires blank != [] && Exec(blank, acts).Some?
    ensures var s := Exec(blank, acts).value;
      s.prod.PTest? ==>
        && Enabled(s, TestFull)
        && var load := s.prod.load;
        && load.occupancy <= |s.pushed| - load.entry < |blank|
        && (Step(s, TestFull).prod.PIdle? <==> |s.pushed| - load.entry == |blank| - 1)
        && (load.newest ==> (Step(s, TestFull).prod.PIdle? <==> load.occupancy == |blank| - 1))
  {
    Reachable(blank, acts);
    var s := Exec(blank, acts).value;
    if s.prod.PTest? { FullExact(s); }
  }

  /** A pop fails exactly when the queue was empty as of the tail value it loaded; a stale value can only
      understate occupancy. */
  lemma PopFailsWhenEmpty<V>(blank: seq<V>, acts: seq<Action<V>>)
    requires blank != [] && Exec(blank, acts).Some?
    ensures var s := Exec(blank, acts).value;
      s.cons.CTest? ==>
        && Enabled(s, TestEmpty)
        && var load := s.cons.load;
        && |s.popped| <= load.entry && load.entry - |s.popped| <= load.occupancy
        && (Step(s, TestEmpty).cons.CIdle? <==> load.entry == |s.popped|)
        && (load.newest ==> (Step(s, TestEmpty).cons.CIdle? <==> load.occupancy == 0))
  {
    Reachable(blank, acts);
    var s := Exec(blank, acts).value;
    if s.cons.CTest? { Window(H(s), s.consView, |s.slots|); }
  }

  // ---- a stale load at work ----

  lemma ExecNext<V>(blank: seq<V>, acts: seq<Action<V>>, a: Action<V>)
    requires Exec(blank, acts).Some? && Enabled(Exec(blank, acts).value, a)
    ensures Exec(blank, acts + [a]) == Some(Step(Exec(blank, acts).value, a))
  {
    assert (acts + [a])[..|acts|] == acts;
  }

  /** A state reached in steps, each enabled. */
  ghost predicate Leads<V(!new)>(blank: seq<V>, s: State<V>) {
    exists acts :: Exec(blank, acts) == Some(s)
  }

  lemma LeadsOn<V(!new)>(blank: seq<V>, s: State<V>, a: Action<V>)
    requires Leads(blank, s) && Enabled(s, a)
    ensures Leads(blank, Step(s, a))
  {
    var acts :| Exec(blank, acts) == Some(s);
    ExecNext(blank, acts, a);
  }

  /** Why the exact answer needs the newest value: with two slots, after one push and one pop, a push that
      loads the head the producer has already seen gives up although the queue is empty. */
  lemma StaleHeadLooksFull<V(!new)>(x: V, y: V, a: V, b: V)
    ensures exists s: State<V> :: Leads([x, y], s) && s.prod.PTest? && s.prod.val == b && Contents(s) == [] &&
                                  Step(s, TestFull).prod.PIdle?
  {
    var blank := [x, y];
    assert Exec(blank, []) == Some(Init(blank));
    var s := PushOne(blank, Init(blank), a);
    s := PopOne(blank, s);
    assert |s.heads| == 2 && s.prodView == 0 && s.heads[0].value == 0 && Tail(s) == 1;
    LeadsOn(blank, s, CallPush(b));
    s := Step(s, CallPush(b));
    LeadsOn(blank, s, LoadHeadAcquire(0));
    s := Step(s, LoadHeadAcquire(0));
    LeadsOn(blank, s, LoadTailOwn);
    s := Step(s, LoadTailOwn);
    assert Wrap(2, 2) == 0;
  }

  lemma PushOne<V(!new)>(blank: seq<V>, s0: State<V>, a: V) returns (s: State<V>)
    requires |blank| == 2 && Leads(blank, s0) && s0 == Init(blank)
    ensures Leads(blank, s) && s.prod.PIdle? && s.cons.CIdle?
    ensures |s.slots| == 2 && s.heads == [Store(0, 0)] && s.tails == [Store(0, 0), Store(1, 1)]
    ensures s.prodView == 0 && s.consView == 0 && s.takes == 0
  {
    LeadsOn(blank, s0, CallPush(a));
    s := Step(s0, CallPush(a));
    LeadsOn(blank, s, LoadHeadAcquire(0));
    s := Step(s, LoadHeadAcquire(0));
    LeadsOn(blank, s, LoadTailOwn);
    s := Step(s, LoadTailOwn);
    LeadsOn(blank, s, TestFull);
    s := Step(s, TestFull);
    LeadsOn(blank, s, WriteSlot);
    s := Step(s, WriteSlot);
    LeadsOn(blank, s, StoreTail);
    s := Step(s, StoreTail);
  }

  /** The consumer has loaded both indices and found an element. */
  lemma PopLoaded<V(!new)>(blank: seq<V>, s0: State<V>) returns (s: State<V>)
    requires |blank| == 2 && Leads(blank, s0) && s0.prod.PIdle? && s0.cons.CIdle?
    requires |s0.slots| == 2 && s0.heads == [Store(0, 0)] && s0.tails == [Store(0, 0), Store(1, 1)]
    requires s0.prodView == 0 && s0.consView == 0 && s0.takes == 0
    ensures Leads(blank, s) && s.prod.PIdle? && s.cons == CTake(0) && s.heads == s0.heads && s.tails == s0.tails
    ensures |s.slots| == 2 && s.prodView == 0 && s.takes == 0
  {
    LeadsOn(blank, s0, CallPop);
    s := Step(s0, CallPop);
    LeadsOn(blank, s, LoadHeadOwn);
    s := Step(s, LoadHeadOwn);
    LeadsOn(blank, s, LoadTailAcquire(1));
    s := Step(s, LoadTailAcquire(1));
    LeadsOn(blank, s, TestEmpty);
    s := Step(s, TestEmpty);
  }

  lemma PopOne<V(!new)>(blank: seq<V>, s0: State<V>) returns (s: State<V>)
    requires |blank| == 2 && Leads(blank, s0) && s0.prod.PIdle? && s0.cons.CIdle?
    requires |s0.slots| == 2 && s0.heads == [Store(0, 0)] && s0.tails == [Store(0, 0), Store(1, 1)]
    requires s0.prodView == 0 && s0.consView == 0 && s0.takes == 0
    ensures Leads(blank, s) && s.prod.PIdle? && s.cons.CIdle?
    ensures |s.slots| == 2 && s.heads == [Store(0, 0), Store(1, 1)] && s.tails == s0.tails && s.prodView == 0
  {
    s := PopLoaded(blank, s0);
    LeadsOn(blank, s, TakeSlot(blank[0]));
    s := Step(s, TakeSlot(blank[0]));
    LeadsOn(blank, s, StoreHead);
    s := Step(s, StoreHead);
  }
}
