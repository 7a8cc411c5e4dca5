/** Building runs of the whole client: what the two threads do, move by move, to bring one frame in, to poll, to
    drain and to take a line. */
module ClientRuns {
  import opened AppRuns
  import opened BattleState
  import opened EndToEnd
  import opened EventLoop
  import opened Types
  import I = Inbound
  import N = Network
  import P = Parser
  import R = SpscRing

  // ---- the ring ----

  /** Both threads are outside the ring, and it is empty. */
  ghost predicate RingQuiet(r: R.State<Message>) {
    R.Inv(r) && |r.slots| == I.CAPACITY && r.prod.PIdle? && r.cons.CIdle? && |r.heads| == |r.tails|
  }

  /** One element is in it. */
  ghost predicate RingHolds(r: R.State<Message>, m: Message) {
    && R.Inv(r) && |r.slots| == I.CAPACITY && r.prod.PIdle? && r.cons.CIdle? && |r.heads| + 1 == |r.tails|
    && r.pushed == r.popped + [m]
  }

  /** The ring after some steps, None if one of them is not possible. */
  function Steps(r: R.State<Message>, acts: seq<R.Action<Message>>): Option<R.State<Message>>
    decreases |acts|
  {
    if acts == [] then Some(r)
    else if R.Enabled(r, acts[0]) then Steps(R.Step(r, acts[0]), acts[1..])
    else None
  }

  lemma StepsCons(r: R.State<Message>, a: R.Action<Message>, acts: seq<R.Action<Message>>)
    requires R.Enabled(r, a)
    ensures Steps(r, [a] + acts) == Steps(R.Step(r, a), acts)
  {
    assert ([a] + acts)[1..] == acts;
  }

  /** A push into an empty ring, from the load of the newest head on. */
  function PushActs(r: R.State<Message>): seq<R.Action<Message>>
    requires R.Shaped(r)
  {
    [R.LoadHeadAcquire(|r.heads| - 1)] + ([R.LoadTailOwn] + ([R.TestFull] + ([R.WriteSlot] + ([R.StoreTail] + []))))
  }

  lemma PushQuiet(r: R.State<Message>, m: Message)
    requires RingQuiet(r)
    ensures R.Enabled(r, R.CallPush(m))
    ensures var r1 := R.Step(r, R.CallPush(m));
      && R.Shaped(r1)
      && Steps(r1, PushActs(r1)).Some?
      && RingHolds(Steps(r1, PushActs(r1)).value, m)
  {
    var r1 := R.Step(r, R.CallPush(m));
    R.StepInv(r, R.CallPush(m));
    var r4 := PushTested(r1, m);
    R.StepInv(r4, R.WriteSlot);
    var r5 := R.Step(r4, R.WriteSlot);
    R.StepInv(r5, R.StoreTail);
    var r6 := R.Step(r5, R.StoreTail);
    hide R.Inv, R.Step;
    StepsCons(r4, R.WriteSlot, [R.StoreTail] + []);
    StepsCons(r5, R.StoreTail, []);
  }

  lemma PushTested(r: R.State<Message>, m: Message) returns (t: R.State<Message>)
    requires R.Inv(r) && |r.slots| == I.CAPACITY && r.prod == R.PLoadHead(m) && |r.heads| == |r.tails|
    requires r.cons.CIdle?
    ensures Steps(r, PushActs(r)) == Steps(t, [R.WriteSlot] + ([R.StoreTail] + []))
    ensures R.Inv(t) && t.prod.PWrite? && t.prod.val == m && t.prod.tail < |t.slots|
    ensures t.heads == r.heads && t.tails == r.tails && t.slots == r.slots
    ensures t.pushed == r.pushed && t.popped == r.popped
    ensures t.cons == r.cons
  {
    var n := |r.heads| - 1;
    R.StepInv(r, R.LoadHeadAcquire(n));
    var a := R.Step(r, R.LoadHeadAcquire(n));
    R.StepInv(a, R.LoadTailOwn);
    var b := R.Step(a, R.LoadTailOwn);
    R.StepInv(b, R.TestFull);
    t := R.Step(b, R.TestFull);
    R.FullExact(b);
    hide R.Inv;
    StepsCons(r, R.LoadHeadAcquire(n), [R.LoadTailOwn] + ([R.TestFull] + ([R.WriteSlot] + ([R.StoreTail] + []))));
    StepsCons(a, R.LoadTailOwn, [R.TestFull] + ([R.WriteSlot] + ([R.StoreTail] + [])));
    StepsCons(b, R.TestFull, [R.WriteSlot] + ([R.StoreTail] + []));
  }

  /** A pop that loads the newest tail, up to its test. */
  lemma PopTested(r: R.State<Message>) returns (a: R.State<Message>, b: R.State<Message>, c: R.State<Message>)
    requires R.Inv(r) && r.cons.CIdle? && r.prod.PIdle?
    ensures R.Enabled(r, R.CallPop) && a == R.Step(r, R.CallPop)
    ensures R.Enabled(a, R.LoadHeadOwn) && b == R.Step(a, R.LoadHeadOwn)
    ensures R.Enabled(b, R.LoadTailAcquire(|r.tails| - 1)) && c == R.Step(b, R.LoadTailAcquire(|r.tails| - 1))
    ensures R.Enabled(c, R.TestEmpty) && R.Inv(c) && c.consView == |r.tails| - 1
    ensures c.heads == r.heads && c.tails == r.tails && c.slots == r.slots
    ensures c.pushed == r.pushed && c.popped == r.popped
    ensures c.prod == r.prod
  {
    R.StepInv(r, R.CallPop);
    a := R.Step(r, R.CallPop);
    R.StepInv(a, R.LoadHeadOwn);
    b := R.Step(a, R.LoadHeadOwn);
    R.StepInv(b, R.LoadTailAcquire(|r.tails| - 1));
    c := R.Step(b, R.LoadTailAcquire(|r.tails| - 1));
  }

  lemma TestedEmpty(c: R.State<Message>)
    requires R.Inv(c) && c.cons.CTest? && c.consView == |c.tails| - 1
    ensures R.Step(c, R.TestEmpty).cons.CIdle? <==> |c.heads| == |c.tails|
    ensures R.Inv(R.Step(c, R.TestEmpty))
    ensures !R.Step(c, R.TestEmpty).cons.CIdle? ==> R.Step(c, R.TestEmpty).cons.CTake?
  {
    R.StepInv(c, R.TestEmpty);
    R.Window(R.H(c), c.consView, |c.slots|);
  }

  // ---- runs of the client ----

  /** A run leads here in these turns. */
  ghost predicate Reaches(blank: seq<Message>, s: Client, ts: seq<Turn>, json: string -> Request,
                          games: string -> Option<string>)
  {
    exists vs :: Exec(blank, vs, json, games) == Some(s) && Turns(blank, vs, json, games) == ts
  }

  lemma OneMoreMove(blank: seq<Message>, vs: seq<Move>, v: Move, json: string -> Request,
                    games: string -> Option<string>)
    requires Exec(blank, vs, json, games).Some? && Enabled(Exec(blank, vs, json, games).value, v)
    ensures var s := Exec(blank, vs, json, games).value;
      && Exec(blank, vs + [v], json, games) == Some(Step(s, v, json, games))
      && Turns(blank, vs + [v], json, games) == Turns(blank, vs, json, games) + TurnOf(s, v)
  {
    hide Enabled, TurnOf, Step, Inv;
    assert (vs + [v])[..|vs|] == vs;
  }

  lemma Go(blank: seq<Message>, s: Client, ts: seq<Turn>, v: Move, json: string -> Request,
           games: string -> Option<string>) returns (t: Client)
    requires Reaches(blank, s, ts, json, games) && Inv(s.app) && Enabled(s, v)
    ensures t == Step(s, v, json, games) && Reaches(blank, t, ts + TurnOf(s, v), json, games)
  {
    hide Enabled, TurnOf, Step, Inv, Exec, Turns;
    var vs :| Exec(blank, vs, json, games) == Some(s) && Turns(blank, vs, json, games) == ts;
    OneMoreMove(blank, vs, v, json, games);
    t := Step(s, v, json, games);
  }

  /** No thread is in the middle of anything. */
  ghost predicate Quiet(s: Client) {
    RingQuiet(s.net.ring) && s.net.reader.Armed? && s.unsent == [] && !s.out.stopped && Inv(s.app)
  }

  /** And the main thread is about to poll. */
  ghost predicate MayPoll(s: Client) {
    Quiet(s) && s.app.defined && (s.stage.Polling? || ((s.stage.Reading? || s.stage.Drawn?) && s.app.running))
  }

  /** A move that is no turn of the main loop. */
  lemma GoQuietly(blank: seq<Message>, s: Client, ts: seq<Turn>, v: Move, json: string -> Request,
                  games: string -> Option<string>) returns (t: Client)
    requires Reaches(blank, s, ts, json, games) && Inv(s.app) && Enabled(s, v) && TurnOf(s, v) == []
    ensures Reaches(blank, t, ts, json, games) && Enabled(s, v)
    ensures t == Client(NetAfter(s, v), OutAfter(s, v), s.app, StageAfter(s, v),
                        if v.Post? then s.unsent[1..] else s.unsent)
  {
    t := Go(blank, s, ts, v, json, games);
    hide Enabled, NetAfter, OutAfter, StageAfter, Inv;
    assert ts + [] == ts && s.unsent + s.app.sends[|s.app.sends|..] == s.unsent;
  }

  /** The texts of open calls of send are posted. */
  lemma PostAll(blank: seq<Message>, s: Client, ts: seq<Turn>, json: string -> Request,
                games: string -> Option<string>) returns (t: Client)
    requires Reaches(blank, s, ts, json, games) && Inv(s.app) && forall k | 0 <= k < |s.unsent| :: s.unsent[k] != ""
    ensures Reaches(blank, t, ts, json, games)
    ensures t == s.(unsent := [], out := t.out) && t.out.stopped == s.out.stopped
    decreases |s.unsent|
  {
    t := s;
    if s.unsent != [] {
      var u := GoQuietly(blank, s, ts, Post, json, games);
      t := PostAll(blank, u, ts, json, games);
    }
  }

  // ---- single moves ----

  lemma NetMove(blank: seq<Message>, s: Client, ts: seq<Turn>, e: I.Event, json: string -> Request,
                games: string -> Option<string>) returns (t: Client)
    requires Reaches(blank, s, ts, json, games) && Inv(s.app) && I.Enabled(s.net, e)
    requires (e.Frame? ==> !s.out.stopped) && (e.Ring? ==> !ByConsumer(e.act))
    ensures Reaches(blank, t, ts, json, games) && t == s.(net := I.Step(s.net, e))
  {
    t := GoQuietly(blank, s, ts, Net(e), json, games);
    hide Reaches, I.Step, I.Enabled, Inv;
  }

  /** A step of the network thread inside push. */
  lemma PushMove(blank: seq<Message>, s: Client, ts: seq<Turn>, act: R.Action<Message>, json: string -> Request,
                 games: string -> Option<string>) returns (t: Client)
    requires Reaches(blank, s, ts, json, games) && Inv(s.app) && R.Enabled(s.net.ring, act)
    requires !ByConsumer(act) && !act.CallPush?
    ensures Reaches(blank, t, ts, json, games)
    ensures t == s.(net := t.net) && t.net.ring == R.Step(s.net.ring, act) && t.net.reader == s.net.reader
  {
    hide Reaches, R.Step, R.Enabled, Inv;
    t := NetMove(blank, s, ts, I.Ring(act), json, games);
  }

  /** A step of the main thread inside pop, short of the one that delivers. */
  lemma PopMove(blank: seq<Message>, s: Client, ts: seq<Turn>, act: R.Action<Message>, json: string -> Request,
                games: string -> Option<string>) returns (t: Client)
    requires Reaches(blank, s, ts, json, games) && Inv(s.app) && s.app.defined && s.unsent == []
    requires R.Enabled(s.net.ring, act) && ByConsumer(act) && !act.StoreHead?
    requires act.CallPop? ==> s.stage.Polling? || ((s.stage.Reading? || s.stage.Drawn?) && s.app.running)
    ensures Reaches(blank, t, ts, json, games)
    ensures t == s.(net := t.net, stage := t.stage) && t.net.ring == R.Step(s.net.ring, act)
            && t.net.reader == s.net.reader
    ensures t.stage == if act.TestEmpty? && t.net.ring.cons.CIdle? then Draining else Polling
  {
    PopEffect(s, act);
    hide Reaches, Enabled, NetAfter, OutAfter, StageAfter, TurnOf, R.Step, R.Enabled, Inv;
    t := GoQuietly(blank, s, ts, Pop(act), json, games);
  }

  lemma PopEffect(s: Client, act: R.Action<Message>)
    requires s.app.defined && s.unsent == []
    requires R.Enabled(s.net.ring, act) && ByConsumer(act) && !act.StoreHead?
    requires act.CallPop? ==> s.stage.Polling? || ((s.stage.Reading? || s.stage.Drawn?) && s.app.running)
    ensures Enabled(s, Pop(act)) && TurnOf(s, Pop(act)) == [] && OutAfter(s, Pop(act)) == s.out
    ensures var net := NetAfter(s, Pop(act));
      && net.ring == R.Step(s.net.ring, act) && net.reader == s.net.reader
      && StageAfter(s, Pop(act)) == if act.TestEmpty? && net.ring.cons.CIdle? then Draining else Polling
  {
    hide R.Step, R.Enabled;
  }

  /** Steps of the network thread inside push. */
  lemma PushSteps(blank: seq<Message>, s: Client, ts: seq<Turn>, acts: seq<R.Action<Message>>, json: string -> Request,
                  games: string -> Option<string>) returns (t: Client)
    requires Reaches(blank, s, ts, json, games) && Inv(s.app) && Steps(s.net.ring, acts).Some?
    requires forall k | 0 <= k < |acts| :: !ByConsumer(acts[k]) && !acts[k].CallPush?
    ensures Reaches(blank, t, ts, json, games)
    ensures t == s.(net := t.net) && t.net.ring == Steps(s.net.ring, acts).value && t.net.reader == s.net.reader
    decreases |acts|
  {
    t := s;
    if acts != [] {
      hide Reaches, R.Step, R.Enabled, Inv;
      var u := PushMove(blank, s, ts, acts[0], json, games);
      t := PushSteps(blank, u, ts, acts[1..], json, games);
    }
  }

  /** A frame of one message arrives, and its push is called. */
  lemma FrameBegun(blank: seq<Message>, s: Client, ts: seq<Turn>, raw: string, m: Message, json: string -> Request,
                   games: string -> Option<string>) returns (t: Client)
    requires Reaches(blank, s, ts, json, games) && Inv(s.app) && P.Messages(raw) == [m] && !s.out.stopped
    requires s.net.reader.Armed? && s.net.ring.prod.PIdle? && R.Shaped(s.net.ring)
    ensures Reaches(blank, t, ts, json, games)
    ensures t == s.(net := t.net) && t.net.ring == R.Step(s.net.ring, R.CallPush(m)) && t.net.reader == I.Pushing([])
  {
    hide Reaches, P.Messages, R.Step, Inv;
    var a := NetMove(blank, s, ts, I.Frame(raw), json, games);
    t := NetMove(blank, a, ts, I.BeginPush, json, games);
  }

  /** A frame of one message comes in while the main thread is about to poll. */
  lemma FrameIn(blank: seq<Message>, s: Client, ts: seq<Turn>, raw: string, m: Message, json: string -> Request,
                games: string -> Option<string>) returns (t: Client)
    requires Reaches(blank, s, ts, json, games) && Quiet(s) && P.Messages(raw) == [m]
    ensures Reaches(blank, t, ts, json, games)
    ensures t == s.(net := t.net) && RingHolds(t.net.ring, m) && t.net.reader.Armed?
  {
    PushQuiet(s.net.ring, m);
    hide Reaches, P.Messages, R.Step, R.Inv, Inv, RingHolds, Steps, PushActs;
    var b := FrameBegun(blank, s, ts, raw, m, json, games);
    PushActsOk(b.net.ring);
    var c := PushSteps(blank, b, ts, PushActs(b.net.ring), json, games);
    HoldsIdle(c.net.ring, m);
    t := Rearmed(blank, c, ts, json, games);
  }

  lemma Rearmed(blank: seq<Message>, c: Client, ts: seq<Turn>, json: string -> Request,
                games: string -> Option<string>) returns (t: Client)
    requires Reaches(blank, c, ts, json, games) && Inv(c.app)
    requires c.net.reader == I.Pushing([]) && c.net.ring.prod.PIdle?
    ensures Reaches(blank, t, ts, json, games)
    ensures t == c.(net := t.net) && t.net.ring == c.net.ring && t.net.reader.Armed?
  {
    hide Reaches, Inv;
    t := NetMove(blank, c, ts, I.Rearm, json, games);
  }

  lemma PushActsOk(r: R.State<Message>)
    requires R.Shaped(r)
    ensures var acts := PushActs(r); forall k | 0 <= k < |acts| :: !ByConsumer(acts[k]) && !acts[k].CallPush?
  {
  }

  lemma HoldsIdle(r: R.State<Message>, m: Message)
    requires RingHolds(r, m)
    ensures r.prod.PIdle? && r.cons.CIdle? && R.Inv(r)
  {
  }

  /** The main thread begins a poll and comes to its test. */
  lemma PollTested(blank: seq<Message>, s: Client, ts: seq<Turn>, json: string -> Request,
                   games: string -> Option<string>) returns (t: Client)
    requires Reaches(blank, s, ts, json, games) && Inv(s.app) && s.app.defined && s.unsent == []
    requires s.stage.Polling? || ((s.stage.Reading? || s.stage.Drawn?) && s.app.running)
    requires R.Inv(s.net.ring) && s.net.ring.cons.CIdle? && s.net.ring.prod.PIdle?
    ensures Reaches(blank, t, ts, json, games)
    ensures t == s.(net := t.net, stage := Polling) && t.net.reader == s.net.reader
    ensures var c, r := t.net.ring, s.net.ring;
      && R.Enabled(c, R.TestEmpty) && R.Inv(c) && c.consView == |r.tails| - 1
      && c.heads == r.heads && c.tails == r.tails && c.slots == r.slots && c.pushed == r.pushed && c.popped == r.popped
      && c.prod == r.prod
  {
    var n := |s.net.ring.tails| - 1;
    var a, b, c := PopTested(s.net.ring);
    hide Reaches, R.Inv, R.Step, R.Enabled, Inv;
    var s1 := PopMove(blank, s, ts, R.CallPop, json, games);
    var s2 := PopMove(blank, s1, ts, R.LoadHeadOwn, json, games);
    t := PopMove(blank, s2, ts, R.LoadTailAcquire(n), json, games);
  }

  /** A poll of an empty ring ends process_network. */
  lemma EmptyPoll(blank: seq<Message>, s: Client, ts: seq<Turn>, json: string -> Request,
                  games: string -> Option<string>) returns (t: Client)
    requires Reaches(blank, s, ts, json, games) && MayPoll(s)
    ensures Reaches(blank, t, ts, json, games) && Quiet(t) && t.stage.Draining? && t.app == s.app
  {
    hide Reaches, R.Enabled, Inv;
    var u := PollTested(blank, s, ts, json, games);
    QuietTested(s.net.ring, u.net.ring);
    hide RingQuiet, R.Inv, R.Step;
    t := PopMove(blank, u, ts, R.TestEmpty, json, games);
  }

  lemma QuietTested(r: R.State<Message>, c: R.State<Message>)
    requires RingQuiet(r) && R.Enabled(c, R.TestEmpty) && R.Inv(c) && c.consView == |r.tails| - 1
    requires c.heads == r.heads && c.tails == r.tails && c.slots == r.slots && c.prod == r.prod
    ensures RingQuiet(R.Step(c, R.TestEmpty)) && R.Step(c, R.TestEmpty).cons.CIdle?
  {
    TestedEmpty(c);
    hide R.Inv;
  }

  /** A poll of a ring that holds a message hands it on. */
  lemma FullPoll(blank: seq<Message>, s: Client, ts: seq<Turn>, m: Message, json: string -> Request,
                 games: string -> Option<string>) returns (t: Client)
    requires Reaches(blank, s, ts, json, games) && Inv(s.app) && s.app.defined && s.unsent == [] && !s.out.stopped
    requires s.stage.Polling? || ((s.stage.Reading? || s.stage.Drawn?) && s.app.running)
    requires RingHolds(s.net.ring, m) && s.net.reader.Armed? && N.Deliverable(m)
    ensures Reaches(blank, t, ts + [Update(m)], json, games)
    ensures Quiet(t) && t.stage.Polling? && t.app == TurnStep(s.app, Update(m), json, games)
  {
    hide Reaches, R.Enabled, Inv;
    var u := PollTested(blank, s, ts, json, games);
    HeldTested(s.net.ring, u.net.ring, m);
    var q := HeldTaken(R.Step(u.net.ring, R.TestEmpty), m);
    hide RingHolds, R.Inv, R.Step;
    var v := PopMove(blank, u, ts, R.TestEmpty, json, games);
    var w := PopMove(blank, v, ts, R.TakeSlot(m), json, games);
    t := HandedOn(blank, w, ts, m, json, games);
  }

  lemma HeldTested(r: R.State<Message>, c: R.State<Message>, m: Message)
    requires RingHolds(r, m) && R.Enabled(c, R.TestEmpty) && R.Inv(c) && c.consView == |r.tails| - 1
    requires c.heads == r.heads && c.tails == r.tails && c.slots == r.slots && c.prod == r.prod
    requires c.pushed == r.pushed && c.popped == r.popped
    ensures var q := R.Step(c, R.TestEmpty);
      && R.Inv(q) && q.cons.CTake? && q.prod.PIdle? && |q.heads| + 1 == |q.tails| && |q.slots| == I.CAPACITY
      && q.pushed == q.popped + [m]
  {
    TestedEmpty(c);
    hide R.Inv;
  }

  lemma HeldTaken(r: R.State<Message>, m: Message) returns (q: R.State<Message>)
    requires R.Inv(r) && r.cons.CTake? && r.prod.PIdle? && |r.heads| + 1 == |r.tails| && |r.slots| == I.CAPACITY
    requires r.pushed == r.popped + [m]
    ensures R.Enabled(r, R.TakeSlot(m)) && q == R.Step(r, R.TakeSlot(m))
    ensures R.Inv(q) && q.cons.CStore? && q.cons.out == m && R.Enabled(q, R.StoreHead)
    ensures RingQuiet(R.Step(q, R.StoreHead))
  {
    R.StepInv(r, R.TakeSlot(m));
    q := R.Step(r, R.TakeSlot(m));
    Delivered(q, m);
    R.StepInv(q, R.StoreHead);
    hide R.Inv;
  }

  /** The store of the head ends the pop, and the message goes to the layers. */
  lemma HandedOn(blank: seq<Message>, w: Client, ts: seq<Turn>, m: Message, json: string -> Request,
                 games: string -> Option<string>) returns (t: Client)
    requires Reaches(blank, w, ts, json, games) && Inv(w.app) && w.app.defined && w.unsent == [] && !w.out.stopped
    requires R.Enabled(w.net.ring, R.StoreHead) && w.net.ring.cons.CStore? && w.net.ring.cons.out == m
    requires RingQuiet(R.Step(w.net.ring, R.StoreHead)) && w.net.reader.Armed? && N.Deliverable(m)
    ensures Reaches(blank, t, ts + [Update(m)], json, games)
    ensures Quiet(t) && t.stage.Polling? && t.app == TurnStep(w.app, Update(m), json, games)
  {
    hide Reaches, RingQuiet, R.Step, R.Enabled, Inv, TurnStep;
    var x := Go(blank, w, ts, Pop(R.StoreHead), json, games);
    SaidTexts(w, Pop(R.StoreHead), json, games);
    assert x.net.ring == R.Step(w.net.ring, R.StoreHead);
    t := PostAll(blank, x, ts + [Update(m)], json, games);
  }

  lemma Delivered(r: R.State<Message>, m: Message)
    requires R.Inv(r) && r.cons.CStore? && r.pushed == r.popped + [m]
    ensures r.cons.out == m && R.Enabled(r, R.StoreHead)
  {
  }

  /** What a turn adds to the open calls of send is not empty. */
  lemma SaidTexts(s: Client, v: Move, json: string -> Request, games: string -> Option<string>)
    requires Enabled(s, v) && Inv(s.app) && s.unsent == [] && !v.Post?
    ensures var t := Step(s, v, json, games); forall k | 0 <= k < |t.unsent| :: t.unsent[k] != ""
  {
    AppSays(s, v, json, games);
    hide Enabled, NetAfter, OutAfter, StageAfter, AppAfter, Inv;
  }

  /** One message from a frame to the layers. */
  lemma OneMessageIn(blank: seq<Message>, s: Client, ts: seq<Turn>, raw: string, m: Message, json: string -> Request,
                     games: string -> Option<string>) returns (t: Client)
    requires Reaches(blank, s, ts, json, games) && MayPoll(s) && P.Messages(raw) == [m] && N.Deliverable(m)
    ensures Reaches(blank, t, ts + [Update(m)], json, games)
    ensures Quiet(t) && t.stage.Polling? && t.app == TurnStep(s.app, Update(m), json, games)
  {
    hide Reaches, RingQuiet, RingHolds, TurnStep;
    var u := FrameIn(blank, s, ts, raw, m, json, games);
    t := FullPoll(blank, u, ts, m, json, games);
  }

  /** A drain, and its texts posted. */
  lemma QueueDrained(blank: seq<Message>, s: Client, ts: seq<Turn>, answers: nat -> string, json: string -> Request,
                games: string -> Option<string>) returns (t: Client)
    requires Reaches(blank, s, ts, json, games) && Quiet(s) && s.app.defined && s.stage.Draining?
    ensures Reaches(blank, t, ts + [Poll(answers)], json, games)
    ensures Quiet(t) && t.stage.Reading? && t.app == TurnStep(s.app, Poll(answers), json, games)
  {
    hide Reaches, RingQuiet, TurnStep, Inv;
    var u := Go(blank, s, ts, DrainQueue(answers), json, games);
    SaidTexts(s, DrainQueue(answers), json, games);
    assert u.net == s.net && u.out == s.out && u.stage == Reading;
    hide Enabled, Step;
    t := PostAll(blank, u, ts + [Poll(answers)], json, games);
  }

  /** The line of a round. */
  lemma LineTyped(blank: seq<Message>, s: Client, ts: seq<Turn>, cmd: string, json: string -> Request,
                  games: string -> Option<string>) returns (t: Client)
    requires Reaches(blank, s, ts, json, games) && Quiet(s) && s.app.defined && s.stage.Reading?
    ensures Reaches(blank, t, ts + [Input(cmd)], json, games)
    ensures Quiet(t) && t.stage.Drawn? && t.app == TurnStep(s.app, Input(cmd), json, games)
  {
    hide Reaches, RingQuiet, Inv;
    t := Go(blank, s, ts, Typed(cmd), json, games);
    assert s.unsent + s.app.sends[|s.app.sends|..] == [];
  }
}
