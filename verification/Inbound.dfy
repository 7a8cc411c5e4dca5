/** The inbound path: the read loop of src/net/wsclient.h parses frames on the network thread and pushes
    the messages into the 256-slot ring; PsClient::poll pops them on the main thread. Every interleaving
    of the two threads, and every stale index load, is a run of this machine. */
module Inbound {
  import opened Types
  import opened Parser
  import Q = SpscQueue
  import R = SpscRing

  const CAPACITY := 256

  /** The read loop: a read is armed, or the messages of a frame are being pushed, or reading is over. */
  datatype Reader = Armed | Pushing(left: seq<Message>) | Closed

  /** `fates` records, for each message whose push returned, whether it went in; `delivered` is what
      PsClient::poll has handed to its caller. */
  datatype State = State(ring: R.State<Message>, reader: Reader, frames: seq<string>, fates: seq<bool>,
                         delivered: seq<Message>)

  datatype Event =
    | Frame(raw: string)                // async_read completes with a frame
    | ReadError                         // it completes with an error, or the io_context stops
    | BeginPush                         // the loop calls push with the next message
    | Rearm                             // the loop is done and reads again
    | Ring(act: R.Action<Message>)      // either thread moves inside push or pop, or poll calls pop

  predicate Enabled(s: State, e: Event) {
    match e
    case Frame(_) => s.reader.Armed?
    case ReadError => s.reader.Armed?
    case BeginPush => s.reader.Pushing? && s.reader.left != [] && R.Shaped(s.ring) && s.ring.prod.PIdle?
    case Rearm => s.reader == Pushing([]) && s.ring.prod.PIdle?
    case Ring(act) => !act.CallPush? && R.Enabled(s.ring, act)
  }

  function Step(s: State, e: Event): State
    requires Enabled(s, e)
  {
    match e
    case Frame(raw) => s.(reader := Pushing(Messages(raw)), frames := s.frames + [raw])
    case ReadError => s.(reader := Closed)
    case BeginPush =>
      s.(ring := R.Step(s.ring, R.CallPush(s.reader.left[0])), reader := Pushing(s.reader.left[1..]))
    case Rearm => s.(reader := Armed)
    case Ring(act) =>
      var ring' := R.Step(s.ring, act);
      s.(ring := ring', fates := s.fates + Fate(s.ring, act),
         delivered := s.delivered + (if act.StoreHead? then [s.ring.cons.out] else []))
  }

  /** Pushes with no pop in between: the messages go in, in order, until the queue is full, and the rest are
      dropped. */
  method Arrive(inbound: Q.SPSCQueue<Message>, ms: seq<Message>)
    requires inbound.Valid()
    modifies inbound, inbound.slots
    ensures inbound.Valid()
    ensures var room := inbound.capacity - 1 - |old(inbound.Contents())|;
      inbound.Contents() == old(inbound.Contents()) + ms[..if |ms| <= room then |ms| else room]
  {
    ghost var was := inbound.Contents();
    ghost var room := inbound.capacity - 1 - |was|;
    for i := 0 to |ms|
      invariant inbound.Valid()
      invariant inbound.Contents() == was + ms[..if i <= room then i else room]
    {
      OneMorePushed(was, ms, i, room);
      var ok := inbound.Push(ms[i]);
    }
  }

  /** What became of some messages pushed into a queue of n elements: each goes in exactly when there is room for
      it, given how many had been popped by then. */
  ghost predicate Fated(ms: seq<Message>, fates: seq<bool>, taken: seq<nat>, n: nat, capacity: nat) {
    && |fates| == |taken| == |ms|
    && forall k | 0 <= k < |ms| :: fates[k] <==> n + |Kept(ms[..k], fates[..k])| - taken[k] < capacity - 1
  }

  lemma FatedNext(ms: seq<Message>, m: Message, fates: seq<bool>, b: bool, taken: seq<nat>, t: nat, n: nat,
                  capacity: nat)
    requires Fated(ms, fates, taken, n, capacity)
    requires |fates| == |ms| && (b <==> n + |Kept(ms, fates)| - t < capacity - 1)
    ensures Fated(ms + [m], fates + [b], taken + [t], n, capacity)
    ensures |fates| == |ms| && Kept(ms + [m], fates + [b]) == Kept(ms, fates) + if b then [m] else []
  {
    var ms', fates', i := ms + [m], fates + [b], |ms|;
    assert ms'[..i] == ms && fates'[..i] == fates;
    hide Kept;
    forall k | 0 <= k < i ensures ms'[..k] == ms[..k] && fates'[..k] == fates[..k] && fates'[k] == fates[k] {
    }
  }

  /** The completion handler of the read loop, with the main thread popping in between: before the kth push it
      pops up to pops(k) times. `taken` says how many it had got by each push, `popped` what. */
  method HandleFrame(inbound: Q.SPSCQueue<Message>, raw: string, pops: nat -> nat)
    returns (ghost fates: seq<bool>, ghost taken: seq<nat>, ghost popped: seq<Message>)
    requires inbound.Valid()
    modifies inbound, inbound.slots
    ensures inbound.Valid()
    ensures Fated(Messages(raw), fates, taken, |old(inbound.Contents())|, inbound.capacity)
    ensures popped + inbound.Contents() == old(inbound.Contents()) + Kept(Messages(raw), fates)
    ensures forall k | 0 <= k < |taken| :: taken[k] <= |popped|
  {
    hide Fated, Kept, Messages;
    var ms := ParseMessage(raw);
    ghost var was := inbound.Contents();
    fates, taken, popped := [], [], [];
    FatedNone(|was|, inbound.capacity);
    assert ms[..0] == [];
    for i := 0 to |ms|
      invariant inbound.Valid() && |fates| == i
      invariant Fated(ms[..i], fates, taken, |was|, inbound.capacity)
      invariant popped + inbound.Contents() == was + Kept(ms[..i], fates)
      invariant forall k | 0 <= k < |taken| :: taken[k] <= |popped|
    {
      ghost var before := inbound.Contents();
      ghost var more := PopUpTo(inbound, pops(i));
      ghost var now := inbound.Contents();
      var ok := inbound.Push(ms[i]);
      OneFated(ms, i, fates, taken, popped, was, more, now, ok, inbound.capacity);
      fates, popped := fates + [ok], popped + more;
      taken := taken + [|popped|];
    }
    assert ms[..|ms|] == ms;
  }

  lemma FatedNone(n: nat, capacity: nat)
    ensures Fated([], [], [], n, capacity) && Kept([], []) == []
  {
  }

  /** Some pops, and then the next push. */
  lemma OneFated(ms: seq<Message>, i: nat, fates: seq<bool>, taken: seq<nat>, popped: seq<Message>,
                 was: seq<Message>, more: seq<Message>, now: seq<Message>, ok: bool, capacity: nat)
    requires i < |ms| && |fates| == i && Fated(ms[..i], fates, taken, |was|, capacity)
    requires popped + (more + now) == was + Kept(ms[..i], fates) && (ok <==> |now| < capacity - 1)
    ensures |fates + [ok]| == i + 1
    ensures Fated(ms[..i + 1], fates + [ok], taken + [|popped + more|], |was|, capacity)
    ensures popped + more + (if ok then now + [ms[i]] else now) == was + Kept(ms[..i + 1], fates + [ok])
  {
    var kept := Kept(ms[..i], fates);
    Regroup(popped, more, now, was, kept, if ok then [ms[i]] else []);
    Regroup(popped, more, now, was, kept, []);
    assert |popped + (more + now)| == |was + kept|;
    FatedNext(ms[..i], ms[i], fates, ok, taken, |popped + more|, |was|, capacity);
    hide Fated, Kept;
    assert ms[..i] + [ms[i]] == ms[..i + 1];
    assert now + [] == now;
  }

  lemma Regroup<T>(a: seq<T>, b: seq<T>, c: seq<T>, d: seq<T>, e: seq<T>, x: seq<T>)
    requires a + (b + c) == d + e
    ensures a + b + (c + x) == d + (e + x)
  {
    assert a + b + (c + x) == a + (b + c) + x;
    assert d + (e + x) == d + e + x;
  }

  method PopUpTo(inbound: Q.SPSCQueue<Message>, n: nat) returns (ghost popped: seq<Message>)
    requires inbound.Valid()
    modifies inbound, inbound.slots
    ensures inbound.Valid() && old(inbound.Contents()) == popped + inbound.Contents()
  {
    popped := [];
    for i := 0 to n
      invariant inbound.Valid() && old(inbound.Contents()) == popped + inbound.Contents()
    {
      var ok, out := inbound.Pop();
      if ok {
        popped := popped + [out];
      }
    }
  }

  /** Pushing the next message where there is room for some. */
  lemma OneMorePushed(was: seq<Message>, ms: seq<Message>, i: nat, room: nat)
    requires i < |ms|
    ensures var now := was + ms[..if i <= room then i else room];
      (if |now| < |was| + room then now + [ms[i]] else now) == was + ms[..if i + 1 <= room then i + 1 else room]
  {
    if i < room {
      assert was + ms[..i] + [ms[i]] == was + (ms[..i] + [ms[i]]);
      assert ms[..i] + [ms[i]] == ms[..i + 1];
    }
  }

  /** What a step decides about the message being pushed: in, out, or nothing yet. */
  function Fate(r: R.State<Message>, act: R.Action<Message>): seq<bool>
    requires R.Enabled(r, act)
  {
    if act.StoreTail? then [true]
    else if act.TestFull? && R.Step(r, act).prod.PIdle? then [false]
    else []
  }

  function Exec(blank: seq<Message>, es: seq<Event>): Option<State> {
    if es == [] then Some(State(R.Init(blank), Armed, [], [], []))
    else
      var last := |es| - 1;
      match Exec(blank, es[..last])
      case None => None
      case Some(s) => if Enabled(s, es[last]) then Some(Step(s, es[last])) else None
  }

  /** Every message the frames contain, in order. */
  function Arrived(frames: seq<string>): seq<Message> {
    if frames == [] then [] else Arrived(frames[..|frames| - 1]) + Messages(frames[|frames| - 1])
  }

  /** The messages whose flag is set. */
  function Kept(ms: seq<Message>, flags: seq<bool>): (r: seq<Message>)
    requires |ms| == |flags|
    ensures |r| <= |ms|
  {
    if ms == [] then []
    else
      var last := |ms| - 1;
      Kept(ms[..last], flags[..last]) + (if flags[last] then [ms[last]] else [])
  }

  lemma {:induction false} KeptAll(ms: seq<Message>, flags: seq<bool>)
    requires |ms| == |flags| && forall f | f in flags :: f
    ensures Kept(ms, flags) == ms
  {
    if ms != [] {
      var last := |ms| - 1;
      assert flags[last] in flags && forall f | f in flags[..last] :: f in flags;
      KeptAll(ms[..last], flags[..last]);
      assert ms == ms[..last] + [ms[last]];
    }
  }

  function InFlight(p: R.Producer<Message>): seq<Message> {
    if p.PIdle? then [] else [p.val]
  }

  function Left(r: Reader): seq<Message> { if r.Pushing? then r.left else [] }

  /** Everything that arrived is decided or still waiting, and what was pushed is what was decided in. */
  ghost predicate Balanced(all: seq<Message>, fates: seq<bool>, waiting: seq<Message>, pushed: seq<Message>) {
    && |fates| <= |all|
    && all[|fates|..] == waiting
    && pushed == Kept(all[..|fates|], fates)
  }

  ghost predicate Accounted(s: State) {
    && Balanced(Arrived(s.frames), s.fates, InFlight(s.ring.prod) + Left(s.reader), s.ring.pushed)
    && s.delivered == s.ring.popped
    && (!s.reader.Pushing? ==> s.ring.prod.PIdle?)
  }

  ghost predicate Inv(s: State) {
    R.Inv(s.ring) && |s.ring.slots| == CAPACITY && Accounted(s)
  }

  lemma Decide(all: seq<Message>, fates: seq<bool>, waiting: seq<Message>, pushed: seq<Message>, b: bool)
    requires Balanced(all, fates, waiting, pushed) && waiting != []
    ensures Balanced(all, fates + [b], waiting[1..], pushed + (if b then [waiting[0]] else []))
  {
    var longer, more := all[..|fates| + 1], fates + [b];
    assert longer[..|fates|] == all[..|fates|] && more[..|fates|] == fates;
    assert all[|fates| + 1..] == all[|fates|..][1..];
  }

  /** How a ring step changes what the accounting looks at. */
  lemma RingEffect(r: R.State<Message>, a: R.Action<Message>)
    requires R.Enabled(r, a)
    ensures var r' := R.Step(r, a);
      && r'.pushed == r.pushed + (if a.StoreTail? then [r.prod.val] else [])
      && r'.popped == r.popped + (if a.StoreHead? then [r.cons.out] else [])
      && |r'.slots| == |r.slots|
    ensures !a.CallPush? ==>
      InFlight(r.prod) == InFlight(R.Step(r, a).prod) + (if Fate(r, a) == [] then [] else [r.prod.val])
    ensures Fate(r, a) == [] || Fate(r, a) == [a.StoreTail?]
    ensures Fate(r, a) == [true] <==> a.StoreTail?
    ensures !a.CallPush? && Fate(r, a) != [] ==> !r.prod.PIdle? && R.Step(r, a).prod.PIdle?
  {
  }

  lemma RingAccounted(s: State, a: R.Action<Message>)
    requires Accounted(s) && Enabled(s, Ring(a))
    ensures Accounted(Step(s, Ring(a)))
  {
    RingEffect(s.ring, a);
    var all, left := Arrived(s.frames), Left(s.reader);
    var flying, fate := InFlight(s.ring.prod), Fate(s.ring, a);
    hide Balanced, R.Step, Arrived, Fate, Left;
    if fate == [] {
      assert s.fates + [] == s.fates && s.ring.pushed + [] == s.ring.pushed;
      assert InFlight(Step(s, Ring(a)).ring.prod) + [] == InFlight(Step(s, Ring(a)).ring.prod);
    } else {
      assert flying == [s.ring.prod.val] && flying + left == [s.ring.prod.val] + left;
      assert ([s.ring.prod.val] + left)[1..] == [] + left;
      Decide(all, s.fates, flying + left, s.ring.pushed, a.StoreTail?);
    }
  }

  lemma ReaderAccounted(s: State, e: Event)
    requires Accounted(s) && !e.Ring? && Enabled(s, e)
    ensures Accounted(Step(s, e))
  {
    var all := Arrived(s.frames);
    if e.Frame? {
      var s' := Step(s, e);
      assert s'.frames[..|s'.frames| - 1] == s.frames;
      assert Arrived(s'.frames)[..|s.fates|] == all[..|s.fates|];
    }
  }

  lemma StepInv(s: State, e: Event)
    requires Inv(s) && Enabled(s, e)
    ensures Inv(Step(s, e))
  {
    if e.Ring? {
      R.StepInv(s.ring, e.act);
      RingEffect(s.ring, e.act);
      RingAccounted(s, e.act);
    } else {
      if e.BeginPush? {
        R.StepInv(s.ring, R.CallPush(s.reader.left[0]));
        RingEffect(s.ring, R.CallPush(s.reader.left[0]));
      }
      ReaderAccounted(s, e);
    }
  }

  lemma {:induction false} Reachable(blank: seq<Message>, es: seq<Event>)
    requires |blank| == CAPACITY && Exec(blank, es).Some?
    ensures Inv(Exec(blank, es).value)
  {
    if es == [] {
      R.InitInv(blank);
    } else {
      Reachable(blank, es[..|es| - 1]);
      StepInv(Exec(blank, es[..|es| - 1]).value, es[|es| - 1]);
    }
  }

  /** End to end: what poll has delivered is, in order and without repeats, an initial part of the messages
      of the received frames whose push succeeded; if none failed, of all of them. */
  lemma Delivery(blank: seq<Message>, es: seq<Event>)
    requires |blank| == CAPACITY && Exec(blank, es).Some?
    ensures var s := Exec(blank, es).value;
      var all := Arrived(s.frames);
      && |s.fates| <= |all|
      && s.delivered <= Kept(all[..|s.fates|], s.fates)
      && ((forall f | f in s.fates :: f) ==> s.delivered <= all)
  {
    Reachable(blank, es);
    var s := Exec(blank, es).value;
    var all := Arrived(s.frames);
    if forall f | f in s.fates :: f {
      KeptAll(all[..|s.fates|], s.fates);
    }
  }

  lemma PushedSplits(r: R.State<Message>)
    requires R.Inv(r)
    ensures r.pushed == r.popped + R.Contents(r)
  {
    R.ContentsPending(r);
    hide R.Contents;
    var h := R.H(r);
    assert r.pushed == r.pushed[..h] + r.pushed[h..];
  }

  lemma AllDecided(all: seq<Message>, fates: seq<bool>, pushed: seq<Message>)
    requires Balanced(all, fates, [], pushed)
    ensures |fates| == |all| && pushed == Kept(all, fates)
  {
    assert all[|fates|..] == [];
    assert all[..|fates|] == all;
  }

  /** Nothing is lost while the network thread is inside push: once it is idle with no message left, every
      message that arrived has a fate, and the ring holds the successful ones not yet delivered. */
  lemma NothingUndecided(blank: seq<Message>, es: seq<Event>)
    requires |blank| == CAPACITY && Exec(blank, es).Some?
    ensures var s := Exec(blank, es).value;
      !s.reader.Pushing? ==>
        && |s.fates| == |Arrived(s.frames)|
        && R.Shaped(s.ring)
        && Kept(Arrived(s.frames), s.fates) == s.delivered + R.Contents(s.ring)
  {
    hide R.Contents, Kept, Exec;
    Reachable(blank, es);
    var s := Exec(blank, es).value;
    if !s.reader.Pushing? {
      assert InFlight(s.ring.prod) + Left(s.reader) == [];
      AllDecided(Arrived(s.frames), s.fates, s.ring.pushed);
      PushedSplits(s.ring);
    }
  }

  /** A message is dropped only when 255 pushed messages were unpopped as of the head value its push
      loaded; the poll side may since have caught up. */
  lemma DroppedOnlyWhenFull(blank: seq<Message>, es: seq<Event>, act: R.Action<Message>)
    requires |blank| == CAPACITY && Exec(blank, es).Some? && Enabled(Exec(blank, es).value, Ring(act))
    ensures var s := Exec(blank, es).value;
      Fate(s.ring, act) == [false] ==>
        act.TestFull? && |s.ring.pushed| - s.ring.prod.load.entry == 255 && s.ring.prod.load.occupancy <= 255
        && (s.ring.prod.load.newest ==> s.ring.prod.load.occupancy == 255)
  {
    Reachable(blank, es);
    var s := Exec(blank, es).value;
    if act.TestFull? { R.FullExact(s.ring); }
  }
}
