/** src/core/layerstack.cpp: one vector of layers and overlays, with an offset meant to mark where the
    overlays begin. The code is followed exactly: pop_overlay also decrements the offset, and pop_layer
    takes a failed search for a hit whenever something lies past the offset. */
module LayerStack {
  import opened Types

  /** A pushed object; `overlay` records which push it came from, which the code does not store. */
  datatype Entry = Entry(id: nat, overlay: bool)

  datatype Notice = Attach(id: nat) | Detach(id: nat)

  /** `notices` are the on_attach and on_detach calls made, oldest first. */
  datatype Stack = Stack(layers: seq<Entry>, offset: nat, notices: seq<Notice>)

  datatype Op = PushLayer(id: nat) | PushOverlay(id: nat) | PopLayer(id: nat) | PopOverlay(id: nat)

  const EMPTY := Stack([], 0, [])
  const U32 := 0x1_0000_0000

  /** The first entry of that identity from lo on, hi if there is none before hi. */
  function Search(layers: seq<Entry>, id: nat, lo: nat, hi: nat): (i: nat)
    requires lo <= hi <= |layers|
    ensures lo <= i <= hi
    ensures i < hi ==> layers[i].id == id
    ensures forall j | lo <= j < i :: layers[j].id != id
    decreases hi - lo
  {
    if lo == hi || layers[lo].id == id then lo else Search(layers, id, lo + 1, hi)
  }

  /** Iterators begin() + offset are made only within the vector. */
  predicate Defined(s: Stack, op: Op) { op.PushOverlay? || s.offset <= |s.layers| }

  /** The position a pop removes, |layers| if it removes nothing. */
  function Victim(s: Stack, op: Op): (i: nat)
    requires Defined(s, op) && (op.PopLayer? || op.PopOverlay?)
    ensures i <= |s.layers|
  {
    if op.PopLayer? then Search(s.layers, op.id, 0, s.offset)
    else Search(s.layers, op.id, s.offset, |s.layers|)
  }

  predicate Removes(s: Stack, op: Op) {
    (op.PopLayer? || op.PopOverlay?) && Defined(s, op) && Victim(s, op) < |s.layers|
  }

  function RemoveAt<T>(xs: seq<T>, i: nat): seq<T>
    requires i < |xs|
  {
    xs[..i] + xs[i + 1..]
  }

  function InsertAt<T>(xs: seq<T>, i: nat, x: T): seq<T>
    requires i <= |xs|
  {
    xs[..i] + [x] + xs[i..]
  }

  /** The offset is a 32-bit unsigned integer. */
  function Step(s: Stack, op: Op): Stack
    requires Defined(s, op)
  {
    match op
    case PushLayer(id) =>
      Stack(InsertAt(s.layers, s.offset, Entry(id, false)), (s.offset + 1) % U32, s.notices + [Attach(id)])
    case PushOverlay(id) => s.(layers := s.layers + [Entry(id, true)], notices := s.notices + [Attach(id)])
    case _ =>
      if !Removes(s, op) then s
      else
        var i := Victim(s, op);
        Stack(RemoveAt(s.layers, i), (s.offset + U32 - 1) % U32, s.notices + [Detach(s.layers[i].id)])
  }

  /** The offset passes an end of its range. */
  predicate Wraps(s: Stack, op: Op) {
    (op.PushLayer? && s.offset + 1 == U32) || (Removes(s, op) && s.offset == 0)
  }

  /** The state after a run; None if an operation on the way is undefined. */
  function Run(ops: seq<Op>): Option<Stack> {
    if ops == [] then Some(EMPTY)
    else
      var last := |ops| - 1;
      match Run(ops[..last])
      case None => None
      case Some(s) => if Defined(s, ops[last]) then Some(Step(s, ops[last])) else None
  }

  /** The destructor detaches whatever is left, last first. */
  function Destroy(s: Stack): Stack
    decreases |s.layers|
  {
    if s.layers == [] then s
    else
      var last := |s.layers| - 1;
      Destroy(s.(layers := s.layers[..last], notices := s.notices + [Detach(s.layers[last].id)]))
  }

  // ---- the object ----

  class Layers {
    var mLayers: seq<Entry>
    var mOffset: nat
    var notices: seq<Notice>

    function View(): Stack
      reads this
    {
      Stack(mLayers, mOffset, notices)
    }

    constructor ()
      ensures View() == EMPTY
    {
      mLayers, mOffset, notices := [], 0, [];
    }

    method Find(id: nat, lo: nat, hi: nat) returns (i: nat)
      requires lo <= hi <= |mLayers|
      ensures i == Search(mLayers, id, lo, hi)
    {
      i := lo;
      while i < hi && mLayers[i].id != id
        invariant lo <= i <= hi
        invariant Search(mLayers, id, lo, hi) == Search(mLayers, id, i, hi)
      {
        i := i + 1;
      }
    }

    method PushLayer(id: nat)
      requires Defined(View(), Op.PushLayer(id))
      modifies this
      ensures View() == Step(old(View()), Op.PushLayer(id))
    {
      mLayers := mLayers[..mOffset] + [Entry(id, false)] + mLayers[mOffset..];
      mOffset := (mOffset + 1) % U32;
      notices := notices + [Attach(id)];
    }

    method PushOverlay(id: nat)
      modifies this
      ensures View() == Step(old(View()), Op.PushOverlay(id))
    {
      mLayers := mLayers + [Entry(id, true)];
      notices := notices + [Attach(id)];
    }

    method PopLayer(id: nat)
      requires Defined(View(), Op.PopLayer(id))
      modifies this
      ensures View() == Step(old(View()), Op.PopLayer(id))
    {
      var it := Find(id, 0, mOffset);
      if it != |mLayers| {
        EraseAt(it);
      }
    }

    method PopOverlay(id: nat)
      requires Defined(View(), Op.PopOverlay(id))
      modifies this
      ensures View() == Step(old(View()), Op.PopOverlay(id))
    {
      var it := Find(id, mOffset, |mLayers|);
      if it != |mLayers| {
        EraseAt(it);
      }
    }

    method EraseAt(i: nat)
      requires i < |mLayers|
      modifies this
      ensures mLayers == RemoveAt(old(mLayers), i)
      ensures mOffset == (old(mOffset) + U32 - 1) % U32
      ensures notices == old(notices) + [Detach(old(mLayers)[i].id)]
    {
      notices := notices + [Detach(mLayers[i].id)];
      mLayers := mLayers[..i] + mLayers[i + 1..];
      mOffset := (mOffset + U32 - 1) % U32;
    }

    /** The destructor's backward loop. */
    method Destruct()
      modifies this
      ensures View() == Destroy(old(View()))
    {
      ghost var done := Destroy(View());
      var i := |mLayers|;
      assert mLayers[..i] == mLayers;
      while i > 0
        invariant 0 <= i <= |mLayers|
        invariant mLayers == old(mLayers) && mOffset == old(mOffset)
        invariant Destroy(Stack(mLayers[..i], mOffset, notices)) == done
      {
        i := i - 1;
        assert mLayers[..i + 1][..i] == mLayers[..i];
        notices := notices + [Detach(mLayers[i].id)];
      }
      mLayers := [];
    }
  }

  // ---- where the boundary really is ----

  /** The first n entries, and only they, are layers. */
  ghost predicate SplitAt(layers: seq<Entry>, n: nat) {
    n <= |layers| && forall i | 0 <= i < |layers| :: layers[i].overlay <==> i >= n
  }

  /** How many entries pops have removed, and how many of them were overlays. */
  function Removals(ops: seq<Op>): nat
    requires Run(ops).Some?
  {
    if ops == [] then 0
    else
      var last := |ops| - 1;
      Removals(ops[..last]) + if Removes(Run(ops[..last]).value, ops[last]) then 1 else 0
  }

  function OverlaysGone(ops: seq<Op>): nat
    requires Run(ops).Some?
  {
    if ops == [] then 0
    else
      var last := |ops| - 1;
      OverlaysGone(ops[..last]) + LosesOverlay(Run(ops[..last]).value, ops[last])
  }

  function LosesOverlay(s: Stack, op: Op): nat {
    if Removes(s, op) && s.layers[Victim(s, op)].overlay then 1 else 0
  }

  function LayerPushes(ops: seq<Op>): nat {
    if ops == [] then 0
    else LayerPushes(ops[..|ops| - 1]) + if ops[|ops| - 1].PushLayer? then 1 else 0
  }

  lemma OffsetMoves(s: Stack, op: Op)
    requires Defined(s, op) && !Wraps(s, op) && s.offset < U32
    ensures Step(s, op).offset < U32
    ensures Step(s, op).offset == s.offset + (if op.PushLayer? then 1 else 0) - (if Removes(s, op) then 1 else 0)
  {
  }

  lemma StepBoundary(s: Stack, op: Op, gone: nat)
    requires Defined(s, op) && !Wraps(s, op) && s.offset < U32 && SplitAt(s.layers, s.offset + gone)
    ensures SplitAt(Step(s, op).layers, Step(s, op).offset + gone + LosesOverlay(s, op))
  {
    OffsetMoves(s, op);
    if Removes(s, op) {
      assert s.layers[Victim(s, op)].overlay <==> Victim(s, op) >= s.offset + gone;
    }
  }

  /** Where the offset lies: short of the first overlay by the overlays ever detached, or, once it has wrapped,
      past the end of any vector that many pushes can make. */
  ghost predicate Lies(s: Stack, gone: nat, pushes: nat) {
    && |s.layers| <= pushes
    && ((s.offset <= pushes && SplitAt(s.layers, s.offset + gone)) || (s.offset == U32 - 1 && gone > 0))
  }

  lemma StepLies(s: Stack, op: Op, gone: nat, pushes: nat)
    requires Defined(s, op) && Lies(s, gone, pushes) && pushes + (if IsPush(op) then 1 else 0) < U32 - 1
    ensures Lies(Step(s, op), gone + LosesOverlay(s, op), pushes + if IsPush(op) then 1 else 0)
  {
    if s.offset != U32 - 1 {
      if Wraps(s, op) {
        assert gone == 0 ==> s.layers[Victim(s, op)].overlay;
      } else {
        OffsetMoves(s, op);
        StepBoundary(s, op, gone);
      }
    }
  }

  /** In every run of fewer than 2^32 - 1 pushes the vector is layers first and overlays after, and the offset
      falls short of the first overlay by the overlays ever detached, until it wraps; from then on it lies past
      the end, and an overlay has been detached. */
  lemma {:induction false} Boundary(ops: seq<Op>)
    requires Run(ops).Some? && |Pushed(ops)| < U32 - 1
    ensures Lies(Run(ops).value, OverlaysGone(ops), |Pushed(ops)|)
    ensures var s := Run(ops).value;
      if s.offset == U32 - 1 then OverlaysGone(ops) > 0 && s.offset > |s.layers|
      else SplitAt(s.layers, s.offset + OverlaysGone(ops))
  {
    if ops != [] {
      var front, op := ops[..|ops| - 1], ops[|ops| - 1];
      Boundary(front);
      StepLies(Run(front).value, op, OverlaysGone(front), |Pushed(front)|);
    }
  }

  /** Moving the offset by one moves the residue of its exact value by one. */
  lemma OffsetFollows(offset: nat, exact: int)
    requires offset == exact % U32
    ensures (offset + 1) % U32 == (exact + 1) % U32
    ensures (offset + U32 - 1) % U32 == (exact - 1) % U32
  {
    var q := exact / U32;
    assert exact == q * U32 + offset;
    SameResidue(exact + 1, q);
    SameResidue(exact - 1, q - 1);
  }

  lemma SameResidue(x: int, q: int)
    ensures (x - q * U32) % U32 == x % U32
  {
    var p, r := x / U32, x % U32;
    assert x - q * U32 == (p - q) * U32 + r;
  }

  function Residue(x: int): int { x % U32 }

  lemma StepOffset(s: Stack, op: Op, exact: int)
    requires Defined(s, op) && s.offset == Residue(exact)
    ensures Step(s, op).offset ==
      Residue(exact + (if op.PushLayer? then 1 else 0) - (if Removes(s, op) then 1 else 0))
  {
    OffsetFollows(s.offset, exact);
  }

  lemma OffsetNext(front: seq<Op>, op: Op)
    requires Run(front + [op]).Some? && Run(front).Some?
    requires Run(front).value.offset == Residue(LayerPushes(front) - Removals(front))
    ensures Run(front + [op]).value.offset == Residue(LayerPushes(front + [op]) - Removals(front + [op]))
  {
    hide Step, Residue, Removes, Defined;
    var ops := front + [op];
    assert ops[..|ops| - 1] == front && ops[|ops| - 1] == op;
    StepOffset(Run(front).value, op, LayerPushes(front) - Removals(front));
  }

  lemma {:induction false} OffsetCounted(ops: seq<Op>)
    requires Run(ops).Some?
    ensures Run(ops).value.offset == Residue(LayerPushes(ops) - Removals(ops))
  {
    hide Step, Removes, Defined;
    if ops != [] {
      var front, op := ops[..|ops| - 1], ops[|ops| - 1];
      OffsetCounted(front);
      OffsetNext(front, op);
      assert front + [op] == ops;
    }
  }

  /** In every run the offset is the layer pushes less everything any pop removed, modulo 2^32. */
  lemma OffsetCounts(ops: seq<Op>)
    requires Run(ops).Some?
    ensures Run(ops).value.offset == (LayerPushes(ops) - Removals(ops)) % U32
  {
    hide Run, Step, LayerPushes, Removals;
    OffsetCounted(ops);
  }

  /** In every run of fewer than 2^32 - 1 pushes, the offset marks the boundary exactly when no overlay has ever
      been detached. */
  lemma BoundaryExact(ops: seq<Op>)
    requires Run(ops).Some? && |Pushed(ops)| < U32 - 1
    ensures var s := Run(ops).value; SplitAt(s.layers, s.offset) <==> OverlaysGone(ops) == 0
  {
    Boundary(ops);
    var s := Run(ops).value;
    if OverlaysGone(ops) > 0 && s.offset != U32 - 1 { assert !s.layers[s.offset].overlay; }
  }

  /** pop_layer removes what it is given exactly when that is a layer before the offset or the entry at it;
      otherwise it removes the entry at the offset, whatever that is, and pop_overlay never does so. */
  lemma PopLayerTakes(s: Stack, id: nat)
    requires Defined(s, PopLayer(id))
    ensures var v := Victim(s, PopLayer(id));
      && (v < |s.layers| && s.layers[v].id == id <==>
            exists i | 0 <= i < |s.layers| && i <= s.offset :: s.layers[i].id == id)
      && (v < |s.layers| && s.layers[v].id != id <==>
            s.offset < |s.layers| && forall i | 0 <= i <= s.offset :: s.layers[i].id != id)
    ensures var v := Victim(s, PopOverlay(id)); v < |s.layers| ==> s.layers[v].id == id
  {
  }

  /** Whatever is on the stack, an overlay that pops itself leaves the vector as it was and the offset one
      lower. */
  lemma OverlayPopsItself(s: Stack, id: nat)
    requires s.offset <= |s.layers| && id !in Ids(s.layers)
    ensures var pushed := Step(s, PushOverlay(id));
      && Defined(pushed, PopOverlay(id))
      && Step(pushed, PopOverlay(id)).layers == s.layers
      && Step(pushed, PopOverlay(id)).offset == (s.offset + U32 - 1) % U32
  {
    var pushed, n := Step(s, PushOverlay(id)), |s.layers|;
    assert forall i | 0 <= i < n :: Ids(s.layers)[i] == pushed.layers[i].id;
    assert pushed.layers[n] == Entry(id, true);
    assert Victim(pushed, PopOverlay(id)) == n;
    assert RemoveAt(pushed.layers, n) == s.layers;
  }

  /** One that is popped as a layer does so only if nothing lay at the offset; otherwise what lay there goes,
      and the overlay stays. */
  lemma OverlayPoppedAsLayer(s: Stack, id: nat)
    requires s.offset <= |s.layers| && id !in Ids(s.layers)
    ensures var pushed := Step(s, PushOverlay(id));
      && Defined(pushed, PopLayer(id))
      && Step(pushed, PopLayer(id)).layers ==
           (if s.offset == |s.layers| then s.layers else RemoveAt(s.layers, s.offset) + [Entry(id, true)])
      && Step(pushed, PopLayer(id)).offset == (s.offset + U32 - 1) % U32
  {
    var pushed, n := Step(s, PushOverlay(id)), |s.layers|;
    assert forall i | 0 <= i < n :: Ids(s.layers)[i] == pushed.layers[i].id;
    assert Victim(pushed, PopLayer(id)) == s.offset;
    if s.offset == n {
      assert RemoveAt(pushed.layers, n) == s.layers;
    } else {
      assert RemoveAt(pushed.layers, s.offset) == RemoveAt(s.layers, s.offset) + [Entry(id, true)];
    }
  }

  function AfterLogin(s: Stack, id: nat): Stack
    requires s.offset <= |s.layers| + 1
  {
    Step(Step(s, PushOverlay(id)), PopOverlay(id))
  }

  /** From any stack with the offset at 1, whatever its entries: a first login, an overlay that pops itself,
      takes the offset to 0, so that the layers lie past it; a second makes it wrap, after which no pop and no
      layer push is defined. */
  lemma SecondLoginWraps(s: Stack, a: nat, b: nat)
    requires s.offset == 1 <= |s.layers| < U32 - 1 && a !in Ids(s.layers) && b !in Ids(s.layers)
    ensures var first := AfterLogin(s, a);
      && first.layers == s.layers && first.offset == 0
      && var second := AfterLogin(first, b);
         && second.layers == s.layers && second.offset == U32 - 1
         && forall op: Op | !op.PushOverlay? :: !Defined(second, op)
  {
    OverlayPopsItself(s, a);
    OverlayPopsItself(AfterLogin(s, a), b);
  }

  /** From any stack that holds one layer, with the offset at 1: of two battles, overlays popped as layers, the
      first end leaves the stack as it was, and the second takes the layer and leaves the battle. */
  lemma SecondBattleTakesMenu(s: Stack, menu: Entry, a: nat, b: nat)
    requires s.layers == [menu] && s.offset == 1 && a != menu.id && b != menu.id
    ensures Defined(Step(s, PushOverlay(a)), PopLayer(a))
    ensures var first := Step(Step(s, PushOverlay(a)), PopLayer(a));
      && first.layers == [menu]
      && Defined(Step(first, PushOverlay(b)), PopLayer(b))
      && Step(Step(first, PushOverlay(b)), PopLayer(b)).layers == [Entry(b, true)]
  {
    OverlayPoppedAsLayer(s, a);
    OverlayPoppedAsLayer(Step(Step(s, PushOverlay(a)), PopLayer(a)), b);
    assert RemoveAt([menu], 0) == [];
  }

  lemma RunNext(ops: seq<Op>, op: Op)
    ensures Run(ops + [op]) ==
      match Run(ops)
      case None => None
      case Some(s) => if Defined(s, op) then Some(Step(s, op)) else None
  {
    assert (ops + [op])[..|ops|] == ops;
  }

  // ---- lifecycle ----

  function Ids(layers: seq<Entry>): (r: seq<nat>)
    ensures |r| == |layers|
    ensures forall i | 0 <= i < |layers| :: r[i] == layers[i].id
  {
    seq(|layers|, i requires 0 <= i < |layers| => layers[i].id)
  }

  function Attached(ns: seq<Notice>): multiset<nat> {
    if ns == [] then multiset{}
    else
      var n := ns[|ns| - 1];
      Attached(ns[..|ns| - 1]) + if n.Attach? then multiset{n.id} else multiset{}
  }

  function Detached(ns: seq<Notice>): multiset<nat> {
    if ns == [] then multiset{}
    else
      var n := ns[|ns| - 1];
      Detached(ns[..|ns| - 1]) + if n.Detach? then multiset{n.id} else multiset{}
  }

  function Pushed(ops: seq<Op>): seq<nat> {
    if ops == [] then []
    else
      var op := ops[|ops| - 1];
      Pushed(ops[..|ops| - 1]) + if op.PushLayer? || op.PushOverlay? then [op.id] else []
  }

  function Detachments(ns: seq<Notice>): nat {
    if ns == [] then 0 else Detachments(ns[..|ns| - 1]) + if ns[|ns| - 1].Detach? then 1 else 0
  }

  /** How many layers a stack has detached so far. */
  function Gone(s: Stack): nat { Detachments(s.notices) }

  lemma GoneStep(s: Stack, op: Op)
    requires Defined(s, op)
    ensures Gone(Step(s, op)) == Gone(s) + (if Removes(s, op) then 1 else 0)
    ensures |Step(s, op).layers| + Gone(Step(s, op)) == |s.layers| + Gone(s) + (if IsPush(op) then 1 else 0)
  {
    if IsPush(op) {
      assert (s.notices + [Attach(op.id)])[..|s.notices|] == s.notices;
    } else if Removes(s, op) {
      var n := Detach(s.layers[Victim(s, op)].id);
      assert (s.notices + [n])[..|s.notices|] == s.notices;
    }
  }

  /** Everything attached is detached or still there. */
  ghost predicate Conserved(s: Stack) {
    Attached(s.notices) == Detached(s.notices) + multiset(Ids(s.layers))
  }

  lemma NoticeAdded(ns: seq<Notice>, n: Notice)
    ensures Attached(ns + [n]) == Attached(ns) + (if n.Attach? then multiset{n.id} else multiset{})
    ensures Detached(ns + [n]) == Detached(ns) + (if n.Detach? then multiset{n.id} else multiset{})
  {
    assert (ns + [n])[..|ns|] == ns;
  }

  lemma IdsRemoved(layers: seq<Entry>, i: nat)
    requires i < |layers|
    ensures multiset(Ids(RemoveAt(layers, i))) + multiset{layers[i].id} == multiset(Ids(layers))
  {
    var ids := Ids(layers);
    assert Ids(RemoveAt(layers, i)) == ids[..i] + ids[i + 1..];
    assert ids == ids[..i] + [ids[i]] + ids[i + 1..];
  }

  lemma IdsInserted(layers: seq<Entry>, i: nat, e: Entry)
    requires i <= |layers|
    ensures multiset(Ids(InsertAt(layers, i, e))) == multiset(Ids(layers)) + multiset{e.id}
  {
    var ids := Ids(layers);
    assert Ids(InsertAt(layers, i, e)) == ids[..i] + [e.id] + ids[i..];
    assert ids == ids[..i] + ids[i..];
  }

  lemma PushConserved(s: Stack, at: nat, e: Entry)
    requires at <= |s.layers| && Conserved(s)
    ensures Attached(s.notices + [Attach(e.id)]) ==
      Detached(s.notices + [Attach(e.id)]) + multiset(Ids(InsertAt(s.layers, at, e)))
  {
    NoticeAdded(s.notices, Attach(e.id));
    IdsInserted(s.layers, at, e);
  }

  lemma RemoveConserved(s: Stack, i: nat)
    requires i < |s.layers| && Conserved(s)
    ensures var ns := s.notices + [Detach(s.layers[i].id)];
      Attached(ns) == Detached(ns) + multiset(Ids(RemoveAt(s.layers, i)))
  {
    NoticeAdded(s.notices, Detach(s.layers[i].id));
    IdsRemoved(s.layers, i);
  }

  lemma StepConserved(s: Stack, op: Op)
    requires Defined(s, op) && Conserved(s)
    ensures Conserved(Step(s, op))
  {
    if op.PushLayer? {
      PushConserved(s, s.offset, Entry(op.id, false));
    } else if op.PushOverlay? {
      PushConserved(s, |s.layers|, Entry(op.id, true));
      assert InsertAt(s.layers, |s.layers|, Entry(op.id, true)) == s.layers + [Entry(op.id, true)];
    } else if Removes(s, op) {
      RemoveConserved(s, Victim(s, op));
    }
  }

  lemma {:induction false} DestroyConserves(s: Stack)
    requires Conserved(s)
    ensures var d := Destroy(s); Detached(d.notices) == Attached(d.notices) == Attached(s.notices)
    decreases |s.layers|
  {
    if s.layers != [] {
      var last := |s.layers| - 1;
      var id := s.layers[last].id;
      NoticeAdded(s.notices, Detach(id));
      IdsRemoved(s.layers, last);
      assert RemoveAt(s.layers, last) == s.layers[..last];
      DestroyConserves(s.(layers := s.layers[..last], notices := s.notices + [Detach(id)]));
    }
  }

  lemma {:induction false} RunConserved(ops: seq<Op>)
    requires Run(ops).Some?
    ensures Conserved(Run(ops).value) && Attached(Run(ops).value.notices) == multiset(Pushed(ops))
  {
    if ops != [] {
      var last := |ops| - 1;
      var s, op := Run(ops[..last]).value, ops[last];
      RunConserved(ops[..last]);
      StepConserved(s, op);
      if op.PushLayer? || op.PushOverlay? {
        NoticeAdded(s.notices, Attach(op.id));
      } else if Removes(s, op) {
        NoticeAdded(s.notices, Detach(s.layers[Victim(s, op)].id));
      }
    }
  }

  /** Lifecycle: at any time what was attached is what was pushed, and is detached or still in the vector;
      once the destructor has run, each has been detached as often as it was pushed. */
  lemma Lifecycle(ops: seq<Op>)
    requires Run(ops).Some?
    ensures var s := Run(ops).value;
      && Attached(s.notices) == multiset(Pushed(ops)) == Detached(s.notices) + multiset(Ids(s.layers))
      && Detached(Destroy(s).notices) == multiset(Pushed(ops))
  {
    RunConserved(ops);
    DestroyConserves(Run(ops).value);
  }

  /** Pushed once, an identity is attached exactly once and, by the time the destructor is done, detached
      exactly once. */
  lemma OnceEach(ops: seq<Op>, id: nat)
    requires Run(ops).Some? && Distinct(Pushed(ops)) && id in Pushed(ops)
    ensures var s := Run(ops).value;
      Attached(s.notices)[id] == 1 && Detached(s.notices)[id] <= 1 && Detached(Destroy(s).notices)[id] == 1
  {
    Lifecycle(ops);
    DistinctCount(Pushed(ops), id);
  }

  lemma {:induction false} DistinctCount(xs: seq<nat>, x: nat)
    requires Distinct(xs) && x in xs
    ensures multiset(xs)[x] == 1
  {
    var front, last := xs[..|xs| - 1], xs[|xs| - 1];
    assert xs == front + [last];
    DistinctPrefix(front, last);
    if x != last { DistinctCount(front, x); }
  }

  // ---- order ----

  ghost predicate Distinct(xs: seq<nat>) { forall i, j | 0 <= i < j < |xs| :: xs[i] != xs[j] }

  ghost predicate Before(layers: seq<Entry>, a: nat, b: nat) {
    exists i, j | 0 <= i < j < |layers| :: layers[i].id == a && layers[j].id == b
  }

  predicate IsPush(op: Op) { op.PushLayer? || op.PushOverlay? }

  /** A step removes an entry or inserts one; the rest stay where they are relative to each other. */
  lemma StepShifts(s: Stack, op: Op)
    requires Defined(s, op)
    ensures var t := Step(s, op).layers;
      || t == s.layers
      || (Removes(s, op) && t == RemoveAt(s.layers, Victim(s, op)))
      || (IsPush(op) && exists i, e: Entry | 0 <= i <= |s.layers| && e.id == op.id :: t == InsertAt(s.layers, i, e))
  {
    if op.PushLayer? {
      assert Entry(op.id, false).id == op.id;
    } else if op.PushOverlay? {
      assert Step(s, op).layers == InsertAt(s.layers, |s.layers|, Entry(op.id, true));
      assert Entry(op.id, true).id == op.id;
    }
  }

  lemma RemoveLive(layers: seq<Entry>, v: nat)
    requires v < |layers| && Distinct(Ids(layers))
    ensures Distinct(Ids(RemoveAt(layers, v)))
    ensures forall x | x in Ids(RemoveAt(layers, v)) :: x in Ids(layers)
  {
    var ids, r := Ids(layers), Ids(RemoveAt(layers, v));
    assert forall i | 0 <= i < |r| :: r[i] == ids[if i < v then i else i + 1];
  }

  lemma InsertLive(layers: seq<Entry>, o: nat, e: Entry)
    requires o <= |layers| && Distinct(Ids(layers)) && e.id !in Ids(layers)
    ensures Distinct(Ids(InsertAt(layers, o, e)))
    ensures forall x | x in Ids(InsertAt(layers, o, e)) :: x in Ids(layers) || x == e.id
  {
    var ids, r := Ids(layers), Ids(InsertAt(layers, o, e));
    assert forall i | 0 <= i < |r| :: r[i] == if i < o then ids[i] else if i == o then e.id else ids[i - 1];
  }

  lemma StepLive(s: Stack, op: Op)
    requires Defined(s, op) && Distinct(Ids(s.layers)) && (IsPush(op) ==> op.id !in Ids(s.layers))
    ensures Distinct(Ids(Step(s, op).layers))
    ensures forall x | x in Ids(Step(s, op).layers) :: x in Ids(s.layers) || (IsPush(op) && x == op.id)
  {
    var t := Step(s, op).layers;
    StepShifts(s, op);
    if t == s.layers {
    } else if Removes(s, op) {
      RemoveLive(s.layers, Victim(s, op));
    } else {
      var i, e: Entry :| 0 <= i <= |s.layers| && e.id == op.id && t == InsertAt(s.layers, i, e);
      InsertLive(s.layers, i, e);
    }
  }

  lemma DistinctPrefix(xs: seq<nat>, x: nat)
    requires Distinct(xs + [x])
    ensures Distinct(xs) && x !in xs
  {
    var all := xs + [x];
    forall i | 0 <= i < |xs| ensures xs[i] != x { assert all[i] == xs[i] && all[|xs|] == x; }
    forall i, j | 0 <= i < j < |xs| ensures xs[i] != xs[j] { assert all[i] == xs[i] && all[j] == xs[j]; }
  }

  /** When no identity is pushed twice, none is in the vector twice. */
  lemma {:induction false} LiveIsPushed(ops: seq<Op>)
    requires Run(ops).Some? && Distinct(Pushed(ops))
    ensures Distinct(Ids(Run(ops).value.layers))
    ensures forall x | x in Ids(Run(ops).value.layers) :: x in Pushed(ops)
  {
    if ops != [] {
      var front, op := ops[..|ops| - 1], ops[|ops| - 1];
      if IsPush(op) { DistinctPrefix(Pushed(front), op.id); } else { assert Pushed(ops) == Pushed(front); }
      LiveIsPushed(front);
      StepLive(Run(front).value, op);
    }
  }

  lemma InsertOrder(layers: seq<Entry>, o: nat, e: Entry, a: nat, b: nat)
    requires o <= |layers| && Before(layers, a, b)
    ensures Before(InsertAt(layers, o, e), a, b)
  {
    var i, j :| 0 <= i < j < |layers| && layers[i].id == a && layers[j].id == b;
    var i', j' := if i < o then i else i + 1, if j < o then j else j + 1;
    var t := InsertAt(layers, o, e);
    assert t[i'].id == a && t[j'].id == b;
  }

  lemma RemoveOrder(layers: seq<Entry>, v: nat, a: nat, b: nat)
    requires v < |layers| && Distinct(Ids(layers)) && Before(layers, a, b)
    requires a in Ids(RemoveAt(layers, v)) && b in Ids(RemoveAt(layers, v))
    ensures Before(RemoveAt(layers, v), a, b)
  {
    var i, j :| 0 <= i < j < |layers| && layers[i].id == a && layers[j].id == b;
    StaysElsewhere(layers, v, i);
    StaysElsewhere(layers, v, j);
    var i', j' := if i < v then i else i - 1, if j < v then j else j - 1;
    var t := RemoveAt(layers, v);
    assert t[i'].id == a && t[j'].id == b;
  }

  lemma StepOrder(s: Stack, op: Op, a: nat, b: nat)
    requires Defined(s, op) && Distinct(Ids(s.layers)) && Before(s.layers, a, b)
    requires a in Ids(Step(s, op).layers) && b in Ids(Step(s, op).layers)
    ensures Before(Step(s, op).layers, a, b)
  {
    var t := Step(s, op).layers;
    StepShifts(s, op);
    if t == s.layers {
    } else if Removes(s, op) {
      RemoveOrder(s.layers, Victim(s, op), a, b);
    } else {
      var i, e: Entry :| 0 <= i <= |s.layers| && e.id == op.id && t == InsertAt(s.layers, i, e);
      InsertOrder(s.layers, i, e, a, b);
    }
  }

  lemma StaysElsewhere(layers: seq<Entry>, v: nat, i: nat)
    requires v < |layers| && i < |layers| && Distinct(Ids(layers))
    requires layers[i].id in Ids(RemoveAt(layers, v))
    ensures i != v
  {
    var ids, r := Ids(layers), Ids(RemoveAt(layers, v));
    var k :| 0 <= k < |r| && r[k] == ids[i];
    assert r[k] == if k < v then ids[k] else ids[k + 1];
  }

  /** Order: two entries still in the vector after any further run are in the order they were. */
  lemma {:induction false} SurvivorsKeepOrder(ops: seq<Op>, more: seq<Op>, a: nat, b: nat)
    requires Run(ops).Some? && Run(ops + more).Some? && Distinct(Pushed(ops + more))
    requires Before(Run(ops).value.layers, a, b)
    requires a in Ids(Run(ops + more).value.layers) && b in Ids(Run(ops + more).value.layers)
    ensures Before(Run(ops + more).value.layers, a, b)
  {
    hide Before, Step, Defined, Distinct;
    if more == [] {
      assert ops + more == ops;
    } else {
      var front, op := ops + more[..|more| - 1], more[|more| - 1];
      assert ops + more == front + [op];
      RunNext(front, op);
      PushedNext(front, op);
      assert Distinct(Pushed(front)) && (IsPush(op) ==> op.id !in Pushed(front)) by {
        if IsPush(op) { DistinctPrefix(Pushed(front), op.id); }
      }
      BeforeLive(Run(ops).value.layers, a, b);
      LiveWere(ops, more[..|more| - 1], a);
      LiveWere(ops, more[..|more| - 1], b);
      LastStepOrder(front, op, a, b);
      SurvivorsKeepOrder(ops, more[..|more| - 1], a, b);
      LastStepOrder(front, op, a, b);
    }
  }

  lemma BeforeLive(layers: seq<Entry>, a: nat, b: nat)
    requires Before(layers, a, b)
    ensures a in Ids(layers) && b in Ids(layers)
  {
    var i, j :| 0 <= i < j < |layers| && layers[i].id == a && layers[j].id == b;
    assert Ids(layers)[i] == a && Ids(layers)[j] == b;
  }

  lemma PushedNext(ops: seq<Op>, op: Op)
    ensures Pushed(ops + [op]) == if IsPush(op) then Pushed(ops) + [op.id] else Pushed(ops)
  {
    assert (ops + [op])[..|ops|] == ops;
  }

  /** The last step of a run: survivors pushed before it were there before it, and keep their order. */
  lemma LastStepOrder(front: seq<Op>, op: Op, a: nat, b: nat)
    requires Run(front).Some? && Defined(Run(front).value, op)
    requires Distinct(Pushed(front)) && (IsPush(op) ==> op.id !in Pushed(front))
    requires a in Pushed(front) && b in Pushed(front)
    requires var t := Step(Run(front).value, op).layers; a in Ids(t) && b in Ids(t)
    ensures var s := Run(front).value;
      && a in Ids(s.layers) && b in Ids(s.layers)
      && (Before(s.layers, a, b) ==> Before(Step(s, op).layers, a, b))
  {
    LiveIsPushed(front);
    StepLive(Run(front).value, op);
    if Before(Run(front).value.layers, a, b) { StepOrder(Run(front).value, op, a, b); }
  }

  lemma {:induction false} PushedGrows(ops: seq<Op>, more: seq<Op>)
    ensures Pushed(ops) <= Pushed(ops + more)
  {
    if more == [] {
      assert ops + more == ops;
    } else {
      assert (ops + more)[..|ops + more| - 1] == ops + more[..|more| - 1];
      PushedGrows(ops, more[..|more| - 1]);
    }
  }

  /** Whatever was once in the vector had been pushed by then. */
  lemma LiveWere(ops: seq<Op>, more: seq<Op>, x: nat)
    requires Run(ops).Some? && Distinct(Pushed(ops + more))
    requires x in Ids(Run(ops).value.layers)
    ensures x in Pushed(ops + more)
  {
    PushedGrows(ops, more);
    var p, q := Pushed(ops), Pushed(ops + more);
    assert Distinct(p) by { assert forall i | 0 <= i < |p| :: p[i] == q[i]; }
    LiveIsPushed(ops);
    assert x in p;
    var k :| 0 <= k < |p| && p[k] == x;
    assert q[k] == x;
  }
}
