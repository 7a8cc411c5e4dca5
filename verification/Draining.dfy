/** The drain loop of PsApp::poll: its termination although handlers submit into the queue it drains, what it
    leaves behind, and exactly when it runs into a stack operation that is undefined. */
module Draining {
  import opened Types
  import opened EventLoop
  import C = PsClient
  import L = LayerStack

  function Weight(e: Event): nat { if e.Command? then 2 else 1 }

  /** Twice the commands plus the other events. */
  function Measure(q: seq<Event>): nat {
    if q == [] then 0 else Weight(q[0]) + Measure(q[1..])
  }

  lemma {:induction false} MeasureAppend(q: seq<Event>, e: Event)
    ensures Measure(q + [e]) == Measure(q) + Weight(e)
  {
    if q == [] {
      assert q + [e] == [e] && [e][1..] == [];
    } else {
      assert (q + [e])[1..] == q[1..] + [e];
      MeasureAppend(q[1..], e);
    }
  }

  /** No layer push is queued. */
  ghost predicate Pushless(q: seq<Event>) { forall k | 0 <= k < |q| :: !q[k].LayerPush? }

  /** Processing an event keeps the invariant, loses no submission, and adds less weight than the event had;
      it goes undefined exactly when it is a layer pop with the offset past the end. */
  lemma ProcessStep(app: App, e: Event, token: string)
    requires Settled(app) && MayHandle(app, e) && |app.queue| < ROOM && Pushless(app.queue)
    ensures var a := Process(app, e, token);
      && Inv(a) && Stacked(a) && Pushless(a.queue) && a.lost == app.lost
      && app.queue <= a.queue
      && Measure(a.queue) < Measure(app.queue) + Weight(e)
    ensures Process(app, e, token).defined <==> app.defined && !(e.LayerPop? && PastEnd(app.stack))
    ensures app.nextId <= Process(app, e, token).nextId
  {
    HandleSettled(app, e);
    HandleKeeps(app, e);
    HandleDefined(app, e);
    DeliverStep(Handle(app, e), e, token);
  }

  lemma DeliverStep(h: App, e: Event, token: string)
    requires Settled(h) && Stacked(h) && |h.queue| < ROOM && Pushless(h.queue)
    ensures var a := Deliver(h, e, token);
      && Inv(a) && Stacked(a) && Pushless(a.queue) && a.lost == h.lost && h.queue <= a.queue
      && Measure(a.queue) < Measure(h.queue) + Weight(e)
      && a.defined == h.defined && a.nextId == h.nextId
  {
    if h.defined {
      DispatchOnce(h, e, |h.stack.layers|, token);
      DispatchStep(h, Deliver(h, e, token), e);
    }
  }

  lemma DispatchStep(h: App, a: App, e: Event)
    requires Settled(h) && Stacked(h) && Dispatched(h, a, e) && |h.queue| < ROOM && Pushless(h.queue)
    ensures Inv(a) && Stacked(a) && Pushless(a.queue) && a.lost == h.lost && h.queue <= a.queue
    ensures Measure(a.queue) < Measure(h.queue) + Weight(e)
  {
    var out :| MayFollow(e, out) && Queued(h, a, out);
    hide Dispatched;
    if out.Some? { MeasureAppend(h.queue, out.value); }
  }

  /** `trace` are the events processed and `stacks` the layer stack each of them found. */
  datatype Drained = Drained(app: App, trace: seq<Event>, stacks: seq<L.Stack>)

  /** The loop of poll: pop, stop if a quit was seen, else process. The pop comes before the test, so one
      event after a quit is popped and dropped. The nth event has the nth of the answers of
      request_assertion. */
  function Drain(app: App, exit: bool, answers: nat -> string, n: nat): Drained
    requires Inv(app)
    decreases Measure(app.queue)
  {
    if app.queue == [] || !app.defined then Drained(app, [], [])
    else
      var e, a := app.queue[0], app.(queue := app.queue[1..]);
      if exit then Drained(a, [], [])
      else
        ProcessStep(a, e, answers(n));
        var rest := Drain(Process(a, e, answers(n)), e == Command("q"), answers, n + 1);
        Drained(rest.app, [e] + rest.trace, [app.stack] + rest.stacks)
  }

  lemma DrainNext(app: App, answers: nat -> string, n: nat) returns (b: App)
    requires Inv(app) && app.queue != [] && app.defined
    ensures var e, a := app.queue[0], app.(queue := app.queue[1..]);
      && Settled(a) && MayHandle(a, e) && |a.queue| < ROOM && b == Process(a, e, answers(n))
      && Inv(b) && Stacked(b) && b.lost == app.lost && a.queue <= b.queue
      && Measure(b.queue) < Measure(app.queue) && app.nextId <= b.nextId
      && (b.defined <==> !(e.LayerPop? && PastEnd(app.stack)))
      && var rest := Drain(b, e == Command("q"), answers, n + 1);
         Drain(app, false, answers, n) == Drained(rest.app, [e] + rest.trace, [app.stack] + rest.stacks)
  {
    hide Process;
    ProcessStep(app.(queue := app.queue[1..]), app.queue[0], answers(n));
    b := Process(app.(queue := app.queue[1..]), app.queue[0], answers(n));
  }

  /** The last event processed was a layer pop that found the offset past the end. */
  predicate EndsPastEnd(d: Drained) {
    && d.trace != [] && |d.stacks| == |d.trace|
    && d.trace[|d.trace| - 1].LayerPop? && PastEnd(d.stacks[|d.trace| - 1])
  }

  /** What a drain of a queue came to. */
  ghost predicate DrainedOf(d: Drained, app: App, exit: bool) {
    && |d.stacks| == |d.trace| <= Measure(app.queue)
    && d.app.lost == app.lost && app.nextId <= d.app.nextId
    && (!d.app.defined <==> !app.defined || EndsPastEnd(d))
    && (app.defined ==> d.app.queue == [] || exit || Command("q") in d.trace || EndsPastEnd(d))
    && (d.app.queue == [] && !exit && Command("q") !in d.trace ==> app.queue <= d.trace)
  }

  lemma OneMore(app: App, b: App, rest: Drained)
    requires app.queue != [] && app.queue[1..] <= b.queue && b.lost == app.lost && app.nextId <= b.nextId
    requires Measure(b.queue) < Measure(app.queue) && app.defined
    requires b.defined <==> !(app.queue[0].LayerPop? && PastEnd(app.stack))
    requires DrainedOf(rest, b, app.queue[0] == Command("q")) && (!b.defined ==> rest.trace == [])
    ensures DrainedOf(Drained(rest.app, [app.queue[0]] + rest.trace, [app.stack] + rest.stacks), app, false)
  {
    hide PastEnd;
    var d := Drained(rest.app, [app.queue[0]] + rest.trace, [app.stack] + rest.stacks);
    assert app.queue == [app.queue[0]] + app.queue[1..];
    assert d.trace[0] == app.queue[0] && forall x :: x in rest.trace ==> x in d.trace;
    assert EndsPastEnd(d) <==> !b.defined || EndsPastEnd(rest);
  }

  lemma {:induction false} DrainOutcome(app: App, exit: bool, answers: nat -> string, n: nat)
    requires Inv(app)
    ensures DrainedOf(Drain(app, exit, answers, n), app, exit)
    decreases Measure(app.queue)
  {
    if app.queue != [] && app.defined && !exit {
      var b := DrainNext(app, answers, n);
      DrainOutcome(b, app.queue[0] == Command("q"), answers, n + 1);
      OneMore(app, b, Drain(b, app.queue[0] == Command("q"), answers, n + 1));
    }
  }

  /** The stacks a drain's layer pops find are counted like those of any run. */
  ghost predicate TwoGone(d: Drained) {
    |d.stacks| == |d.trace| &&
    forall k | 0 <= k < |d.trace| && d.trace[k].LayerPop? ::
      L.Gone(d.stacks[k]) <= 2 && (PastEnd(d.stacks[k]) <==> L.Gone(d.stacks[k]) == 2)
  }

  lemma TwoGoneCons(e: Event, s: L.Stack, rest: Drained)
    requires TwoGone(rest)
    requires e.LayerPop? ==> L.Gone(s) <= 2 && (PastEnd(s) <==> L.Gone(s) == 2)
    ensures TwoGone(Drained(rest.app, [e] + rest.trace, [s] + rest.stacks))
  {
    hide PastEnd, L.Gone;
  }

  lemma {:induction false} DrainCounts(app: App, exit: bool, answers: nat -> string, n: nat)
    requires Inv(app) && Drain(app, exit, answers, n).app.nextId <= L.U32
    ensures TwoGone(Drain(app, exit, answers, n))
    decreases Measure(app.queue)
  {
    if app.queue != [] && app.defined && !exit {
      var b := DrainNext(app, answers, n);
      DrainOutcome(app, exit, answers, n);
      hide Process, TwoGone, PastEnd;
      DrainCounts(b, app.queue[0] == Command("q"), answers, n + 1);
      if app.queue[0].LayerPop? { OffsetsTaken(app); }
      TwoGoneCons(app.queue[0], app.stack, Drain(b, app.queue[0] == Command("q"), answers, n + 1));
    }
  }

  /** The last event processed was a layer pop, and two layers had been detached by then. */
  predicate EndsInThirdPop(d: Drained) {
    && d.trace != [] && |d.stacks| == |d.trace|
    && d.trace[|d.trace| - 1].LayerPop? && L.Gone(d.stacks[|d.trace| - 1]) == 2
  }

  lemma ThirdPop(d: Drained)
    requires TwoGone(d)
    ensures EndsPastEnd(d) <==> EndsInThirdPop(d)
  {
    hide PastEnd, L.Gone;
  }

  /** The drain ends after at most as many turns as the queue weighs and loses no submission although handlers
      submit into the queue it drains. With fewer than 2^32 overlays made it goes undefined exactly when it
      comes to a layer pop after two detachments; else it ends with the queue empty unless it quit, every
      event that was queued having been processed, in order. */
  lemma DrainResult(app: App, answers: nat -> string)
    requires Inv(app) && app.defined && Drain(app, false, answers, 0).app.nextId <= L.U32
    ensures var d := Drain(app, false, answers, 0);
      && |d.trace| <= Measure(app.queue)
      && d.app.lost == app.lost
      && (!d.app.defined <==> EndsInThirdPop(d))
      && (d.app.defined && Command("q") !in d.trace ==> d.app.queue == [] && app.queue <= d.trace)
  {
    DrainOutcome(app, false, answers, 0);
    DrainCounts(app, false, answers, 0);
    hide Drain, Inv, TwoGone, PastEnd, Measure, L.Gone;
    ThirdPop(Drain(app, false, answers, 0));
  }

  lemma {:induction false} DrainInv(app: App, exit: bool, answers: nat -> string, n: nat)
    requires Inv(app) && (exit ==> Stacked(app))
    ensures Inv(Drain(app, exit, answers, n).app)
    decreases Measure(app.queue)
  {
    hide Process;
    if app.queue != [] && app.defined && !exit {
      var b := DrainNext(app, answers, n);
      DrainInv(b, app.queue[0] == Command("q"), answers, n + 1);
    }
  }

  // ---- quitting ----

  /** What the topmost layer submits when it hears a quit. */
  function QuitSubmits(app: App, token: string): seq<Event>
    requires Known(app)
  {
    if app.stack.layers == [] then []
    else
      var id := app.stack.layers[|app.stack.layers| - 1].id;
      match OnCommand(app.layers[id], id, "q", app.client, token).submits
      case None => []
      case Some(e) => [e]
  }

  lemma QuitHeard(l: Layer, id: nat, client: C.Client, token: string)
    ensures var out := OnCommand(l, id, "q", client, token).submits;
      && (l.Menu? ==> out == Some(LayerPop(id, false)))
      && (l.BattleLayer? ==> out == None)
      && (l.LoginOverlay? ==> out == None || out == Some(LayerPop(id, true)))
  {
    hide Tokenize;
  }

  /** A menu on top submits its own pop, a battle nothing; to a login prompt "q" is a name or a password. */
  lemma QuitAtTop(app: App, token: string)
    requires Settled(app) && app.stack.layers != []
    ensures var id := app.stack.layers[|app.stack.layers| - 1].id;
      && (app.layers[id].Menu? ==> QuitSubmits(app, token) == [LayerPop(id, false)])
      && (app.layers[id].BattleLayer? ==> QuitSubmits(app, token) == [])
      && (app.layers[id].LoginOverlay? ==>
            QuitSubmits(app, token) == [] || QuitSubmits(app, token) == [LayerPop(id, true)])
  {
    var id := app.stack.layers[|app.stack.layers| - 1].id;
    QuitHeard(app.layers[id], id, app.client, token);
    hide OnCommand;
  }

  /** Quitting, whatever else is queued: the application stops running, the stack is left for its destructor,
      and of what is queued behind the quit, the topmost layer's submission last, the first event is taken
      off and dropped and the rest stays queued. At a lone quit the event dropped is the menu's own pop. */
  lemma QuitDropsNext(app: App, answers: nat -> string)
    requires Inv(app) && app.defined && app.queue != [] && app.queue[0] == Command("q")
    ensures var d := Drain(app, false, answers, 0);
      var behind := app.queue[1..] + QuitSubmits(app, answers(0));
      && d.trace == [Command("q")]
      && !d.app.running && d.app.defined && d.app.stack == app.stack && d.app.lost == app.lost
      && d.app.queue == if behind == [] then [] else behind[1..]
  {
    hide Drain, Process, QuitSubmits, Settled, Measure;
    var a := app.(queue := app.queue[1..]);
    var b := DrainNext(app, answers, 0);
    QuitProcessed(a, answers(0));
    QuitSame(app, a, answers(0));
    DrainExit(b, answers, 1);
    assert [Command("q")] + [] == [Command("q")];
  }

  lemma QuitSame(app: App, a: App, token: string)
    requires Settled(app) && Settled(a) && a.stack == app.stack && a.layers == app.layers && a.client == app.client
    ensures QuitSubmits(a, token) == QuitSubmits(app, token)
  {
    hide OnCommand;
  }

  lemma DrainExit(b: App, answers: nat -> string, n: nat)
    requires Inv(b) && b.defined
    ensures Drain(b, true, answers, n) ==
      Drained(if b.queue == [] then b else b.(queue := b.queue[1..]), [], [])
  {
  }

  lemma QuitProcessed(a: App, token: string)
    requires Settled(a) && Stacked(a) && a.defined && |a.queue| < ROOM
    ensures var b := Process(a, Command("q"), token);
      && b.queue == a.queue + QuitSubmits(a, token)
      && !b.running && b.defined && b.stack == a.stack && b.lost == a.lost
  {
    hide OnCommand, Stacked, QuitSubmits, Dispatch;
    var h := a.(running := false);
    QuitDelivered(h, token);
    QuitSame(a, h, token);
    assert Process(a, Command("q"), token) == Deliver(h, Command("q"), token);
  }

  lemma QuitDelivered(h: App, token: string)
    requires Settled(h) && h.defined && |h.queue| < ROOM
    ensures var b := Deliver(h, Command("q"), token);
      && b.queue == h.queue + QuitSubmits(h, token)
      && b.running == h.running && b.defined && b.stack == h.stack && b.lost == h.lost
  {
    if h.stack.layers == [] {
      assert h.queue + [] == h.queue;
    } else {
      QuitReaches(h, token);
    }
  }

  lemma QuitReaches(h: App, token: string)
    requires Settled(h) && h.defined && |h.queue| < ROOM && h.stack.layers != []
    ensures var b := Deliver(h, Command("q"), token);
      && b.queue == h.queue + QuitSubmits(h, token)
      && b.running == h.running && b.defined && b.stack == h.stack && b.lost == h.lost
  {
    hide Dispatch, OnCommand;
    CommandsGoToTheTop(h, "q", token);
    assert h.queue + [] == h.queue;
    var id := h.stack.layers[|h.stack.layers| - 1].id;
    var r := OnCommand(h.layers[id], id, "q", h.client, token);
    assert Deliver(h, Command("q"), token) == React(h, id, r);
  }
}
