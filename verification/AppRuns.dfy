/** Runs of the main loop of src/app/psapp.cpp: messages handled, drains and typed lines in any order. What
    every run keeps, what each battle has become, what the session went through, and when a run stops. */
module AppRuns {
  import opened Types
  import opened BattleState
  import opened Draining
  import opened EventLoop
  import L = LayerStack
  import N = Network

  datatype Turn = Update(m: Message) | Poll(answers: nat -> string) | Input(cmd: string)

  predicate Possible(t: Turn) { t.Update? ==> N.Deliverable(t.m) }

  ghost predicate AllPossible(turns: seq<Turn>) { forall t | t in turns :: Possible(t) }

  /** A message is polled only while the application goes on. */
  function TurnStep(app: App, t: Turn, json: string -> Request, games: string -> Option<string>): App
    requires Inv(app) && Possible(t)
  {
    match t
    case Update(m) => if app.defined then N.Receive(app, m, json, games) else app
    case Poll(answers) => Drain(app, false, answers, 0).app
    case Input(cmd) => Submit(app, Command(cmd))
  }

  // ---- what every run keeps ----

  lemma SubmitInv(app: App, e: Event)
    requires Inv(app) && !e.LayerPush? && (app.queue == [] ==> Stacked(app))
    ensures Inv(Submit(app, e))
  {
  }

  lemma ReceiveSettled(app: App, m: Message, json: string -> Request, games: string -> Option<string>)
    requires Settled(app) && N.Deliverable(m)
    ensures var a := N.Receive(app, m, json, games);
      && Settled(a) && a.stack == app.stack && a.nextId == app.nextId
      && (a.queue == app.queue || exists e: Event | !e.LayerPush? :: a.queue == Submit(app, e).queue)
      && (0 in app.layers ==> 0 in a.layers)
  {
    hide Apply, N.Receive;
    var h := N.Received(app, m, json, games);
  }

  lemma SameHead(app: App, a: App)
    requires PushFirst(app) && Settled(a) && a.stack == app.stack && a.nextId == app.nextId
    requires a.queue == app.queue || exists e: Event | !e.LayerPush? :: a.queue == Submit(app, e).queue
    requires 0 in app.layers ==> 0 in a.layers
    ensures Inv(a)
  {
    hide Settled;
    if a.queue != app.queue {
      var e: Event :| !e.LayerPush? && a.queue == Submit(app, e).queue;
    }
  }

  lemma ReceiveInv(app: App, m: Message, json: string -> Request, games: string -> Option<string>)
    requires Inv(app) && N.Deliverable(m)
    ensures Inv(N.Receive(app, m, json, games))
  {
    ReceiveSettled(app, m, json, games);
    hide N.Receive;
    SameHead(app, N.Receive(app, m, json, games));
  }

  lemma TurnInv(app: App, t: Turn, json: string -> Request, games: string -> Option<string>)
    requires Inv(app) && Possible(t)
    ensures Inv(TurnStep(app, t, json, games))
  {
    match t
    case Update(m) => if app.defined { ReceiveInv(app, m, json, games); }
    case Poll(answers) => DrainInv(app, false, answers, 0);
    case Input(cmd) => SubmitInv(app, Command(cmd));
  }

  /** A run of the application. Whatever it does, the menu stays nowhere but at the bottom of the stack,
      every layer on the stack exists, a layer push is queued only before anything else has happened, and
      from then on the offset counts one layer push less all detachments; every drain terminates. */
  function RunTurns(app: App, turns: seq<Turn>, json: string -> Request, games: string -> Option<string>): (a: App)
    requires Inv(app) && AllPossible(turns)
    ensures Inv(a)
  {
    if turns == [] then app
    else
      var last := |turns| - 1;
      FrontPossible(turns);
      var a := RunTurns(app, turns[..last], json, games);
      TurnInv(a, turns[last], json, games);
      TurnStep(a, turns[last], json, games)
  }

  lemma FrontPossible(turns: seq<Turn>)
    requires turns != [] && AllPossible(turns)
    ensures AllPossible(turns[..|turns| - 1]) && Possible(turns[|turns| - 1])
  {
    assert turns[|turns| - 1] in turns && forall t | t in turns[..|turns| - 1] :: t in turns;
  }

  lemma RunNextTurn(app: App, turns: seq<Turn>, t: Turn, json: string -> Request, games: string -> Option<string>)
    requires Inv(app) && AllPossible(turns) && Possible(t)
    ensures AllPossible(turns + [t])
    ensures RunTurns(app, turns + [t], json, games) == TurnStep(RunTurns(app, turns, json, games), t, json, games)
  {
    assert (turns + [t])[..|turns|] == turns;
  }

  function Updates(ms: seq<Message>): (turns: seq<Turn>)
    requires forall m | m in ms :: N.Deliverable(m)
    ensures AllPossible(turns)
  {
    seq(|ms|, i requires 0 <= i < |ms| => Update(ms[i]))
  }

  lemma UpdatesNext(app: App, ms: seq<Message>, m: Message, json: string -> Request, games: string -> Option<string>)
    requires Inv(app) && (forall x | x in ms :: N.Deliverable(x)) && N.Deliverable(m)
    ensures forall x | x in ms + [m] :: N.Deliverable(x)
    ensures RunTurns(app, Updates(ms + [m]), json, games) ==
      TurnStep(RunTurns(app, Updates(ms), json, games), Update(m), json, games)
  {
    assert Updates(ms + [m]) == Updates(ms) + [Update(m)];
    RunNextTurn(app, Updates(ms), Update(m), json, games);
  }

  lemma NoTurns(app: App, json: string -> Request, games: string -> Option<string>)
    requires Inv(app)
    ensures RunTurns(app, Updates([]), json, games) == app
  {
  }

  /** The turns of one round of the main loop, which takes at most one line. */
  function RoundTurns(ms: seq<Message>, answers: nat -> string, typed: Option<string>): (turns: seq<Turn>)
    requires forall m | m in ms :: N.Deliverable(m)
    ensures AllPossible(turns)
  {
    Updates(ms) + [Poll(answers)] + match typed case None => [] case Some(cmd) => [Input(cmd)]
  }

  lemma RoundSplit(app: App, ms: seq<Message>, answers: nat -> string, typed: Option<string>, json: string -> Request,
                   games: string -> Option<string>)
    requires Inv(app) && forall m | m in ms :: N.Deliverable(m)
    ensures var a := Drain(RunTurns(app, Updates(ms), json, games), false, answers, 0).app;
      && Inv(a)
      && RunTurns(app, RoundTurns(ms, answers, typed), json, games) ==
           match typed case None => a case Some(cmd) => Submit(a, Command(cmd))
  {
    DrainInv(RunTurns(app, Updates(ms), json, games), false, answers, 0);
    RunNextTurn(app, Updates(ms), Poll(answers), json, games);
    hide Inv;
    var drained := Updates(ms) + [Poll(answers)];
    match typed
    case None => assert drained + [] == drained;
    case Some(cmd) => RunNextTurn(app, drained, Input(cmd), json, games);
  }

  lemma NewAppInv()
    ensures Inv(NEW_APP)
  {
  }

  // ---- what each battle has become ----

  /** The old layers keep their kind and every battle its state; a new battle is fresh. */
  ghost predicate Grown(app: App, a: App) {
    && app.layers.Keys <= a.layers.Keys
    && (forall id | id in app.layers :: Akin(app.layers[id], a.layers[id]))
    && (forall id | id in a.layers && id !in app.layers && a.layers[id].BattleLayer? :: a.layers[id].state == FRESH)
  }

  lemma GrownOn(app: App, b: App, a: App)
    requires Grown(app, b) && Grown(b, a)
    ensures Grown(app, a)
  {
  }

  lemma HandleGrown(app: App, e: Event)
    requires Settled(app)
    ensures Grown(app, Handle(app, e))
  {
    assert app.nextId !in app.layers;
  }

  lemma ProcessGrown(app: App, e: Event, token: string)
    requires Settled(app) && MayHandle(app, e)
    ensures Grown(app, Process(app, e, token))
  {
    HandleSettled(app, e);
    HandleGrown(app, e);
    var h := Handle(app, e);
    if h.defined {
      DispatchOnce(h, e, |h.stack.layers|, token);
      GrownOn(app, h, Process(app, e, token));
    }
  }

  /** A drain changes the state of no battle. */
  lemma {:induction false} DrainGrown(app: App, exit: bool, answers: nat -> string, n: nat)
    requires Inv(app)
    ensures Grown(app, Drain(app, exit, answers, n).app)
    decreases Measure(app.queue)
  {
    if app.queue != [] && app.defined && !exit {
      var b := DrainNext(app, answers, n);
      ProcessGrown(app.(queue := app.queue[1..]), app.queue[0], answers(n));
      DrainGrown(b, app.queue[0] == Command("q"), answers, n + 1);
      GrownOn(app, b, Drain(app, false, answers, n).app);
    }
  }

  /** A message that was polled, and the layer that heard it. */
  datatype Hearing = Hearing(msg: Message, who: Option<nat>)

  function HearingOf(app: App, t: Turn): seq<Hearing>
    requires Known(app)
  {
    if t.Update? && app.defined then [Hearing(t.m, N.ListenerId(app))] else []
  }

  /** Everything polled in a run, in order, with who heard it. */
  function Hearings(app: App, turns: seq<Turn>, json: string -> Request, games: string -> Option<string>)
    : (hs: seq<Hearing>)
    requires Inv(app) && AllPossible(turns)
    ensures forall h | h in hs :: N.Deliverable(h.msg)
  {
    if turns == [] then []
    else
      var last := |turns| - 1;
      FrontPossible(turns);
      Hearings(app, turns[..last], json, games) + HearingOf(RunTurns(app, turns[..last], json, games), turns[last])
  }

  /** What one layer heard. */
  function HeardBy(hs: seq<Hearing>, id: nat): (ms: seq<Message>)
    requires forall h | h in hs :: N.Deliverable(h.msg)
    ensures forall m | m in ms :: Complete(m)
  {
    if hs == [] then []
    else
      var front, last := hs[..|hs| - 1], hs[|hs| - 1];
      assert last in hs && N.Deliverable(last.msg) && forall h | h in front :: h in hs;
      if last.who == Some(id) then HeardBy(front, id) + [last.msg] else HeardBy(front, id)
  }

  function Polled(hs: seq<Hearing>): (ms: seq<Message>)
    ensures |ms| == |hs| && forall i | 0 <= i < |hs| :: ms[i] == hs[i].msg
  {
    seq(|hs|, i requires 0 <= i < |hs| => hs[i].msg)
  }

  function StateBefore(app: App, id: nat): Battle {
    if id in app.layers && app.layers[id].BattleLayer? then app.layers[id].state else FRESH
  }

  /** The battle of an identity, if it is one, after hearing some messages; a layer not made yet has heard
      nothing. */
  ghost predicate Follows(app: App, a: App, id: nat, heard: seq<Message>, json: string -> Request)
    requires forall m | m in heard :: Complete(m)
  {
    if id in a.layers then
      a.layers[id].BattleLayer? ==>
        (id in app.layers ==> app.layers[id].BattleLayer?) &&
        a.layers[id].state == Run(StateBefore(app, id), heard, json)
    else id !in app.layers && heard == []
  }

  lemma RunOne(s: Battle, ms: seq<Message>, m: Message, json: string -> Request)
    requires (forall x | x in ms :: Complete(x)) && Complete(m)
    ensures forall x | x in ms + [m] :: Complete(x)
    ensures Run(s, ms + [m], json) == Apply(Run(s, ms, json), m, json).state
  {
    assert (ms + [m])[..|ms|] == ms;
  }

  lemma GrownFollows(app: App, b: App, a: App, id: nat, heard: seq<Message>, json: string -> Request)
    requires forall m | m in heard :: Complete(m)
    requires Follows(app, b, id, heard, json) && Grown(b, a)
    ensures Follows(app, a, id, heard, json)
  {
  }

  lemma UpdateFollows(app: App, b: App, m: Message, id: nat, heard: seq<Message>, json: string -> Request,
                      games: string -> Option<string>)
    requires (forall x | x in heard :: Complete(x)) && Known(b) && N.Deliverable(m)
    requires Follows(app, b, id, heard, json)
    ensures var more := heard + if N.ListenerId(b) == Some(id) then [m] else [];
      && (forall x | x in more :: Complete(x))
      && Follows(app, N.Receive(b, m, json, games), id, more, json)
  {
    var h := N.Received(b, m, json, games);
    if N.ListenerId(b) == Some(id) {
      RunOne(StateBefore(app, id), heard, m, json);
    } else {
      assert heard + [] == heard;
    }
  }

  lemma HeardMore(hs: seq<Hearing>, h: Hearing, id: nat)
    requires (forall x | x in hs :: N.Deliverable(x.msg)) && N.Deliverable(h.msg)
    ensures forall x | x in hs + [h] :: N.Deliverable(x.msg)
    ensures HeardBy(hs + [h], id) == HeardBy(hs, id) + if h.who == Some(id) then [h.msg] else []
  {
    assert (hs + [h])[..|hs|] == hs;
  }

  /** In every run, with whatever drains, typed lines and changes of the stack in between: each battle is the
      fold of exactly the messages that were polled while it was the listener, from its state before the run
      or, if it was made in the run, from a new battle. */
  lemma {:induction false} BattlesHear(app: App, turns: seq<Turn>, id: nat, json: string -> Request,
                                       games: string -> Option<string>)
    requires Inv(app) && AllPossible(turns)
    ensures Follows(app, RunTurns(app, turns, json, games), id, HeardBy(Hearings(app, turns, json, games), id), json)
  {
    if turns != [] {
      var last := |turns| - 1;
      FrontPossible(turns);
      BattlesHear(app, turns[..last], id, json, games);
      var b := RunTurns(app, turns[..last], json, games);
      var hs := Hearings(app, turns[..last], json, games);
      LastHeard(app, b, turns[last], hs, id, json, games);
    }
  }

  lemma LastHeard(app: App, b: App, t: Turn, hs: seq<Hearing>, id: nat, json: string -> Request,
                  games: string -> Option<string>)
    requires Inv(b) && Possible(t) && forall x | x in hs :: N.Deliverable(x.msg)
    requires Follows(app, b, id, HeardBy(hs, id), json)
    ensures forall x | x in hs + HearingOf(b, t) :: N.Deliverable(x.msg)
    ensures Follows(app, TurnStep(b, t, json, games), id, HeardBy(hs + HearingOf(b, t), id), json)
  {
    hide Apply, Run;
    if t.Update? && b.defined {
      HeardMore(hs, HearingOf(b, t)[0], id);
      UpdateFollows(app, b, t.m, id, HeardBy(hs, id), json, games);
    } else {
      assert hs + HearingOf(b, t) == hs;
      if t.Poll? { DrainGrown(b, false, t.answers, 0); }
      GrownFollows(app, b, TurnStep(b, t, json, games), id, HeardBy(hs, id), json);
    }
  }

  // ---- when a run stops ----

  /** The listener's handler does not return: the battle throws, or the menu reads an argument that is not
      there. */
  predicate Throws(app: App, m: Message, json: string -> Request)
    requires Known(app) && Complete(m)
  {
    N.ListenerId(app).Some? &&
    match app.layers[N.ListenerId(app).value]
    case Menu => (m.kind == "updateuser" || m.kind == "win") && m.args == []
    case LoginOverlay(_, _) => false
    case BattleLayer(state, _, _) => !Apply(state, m, json).ok
  }

  /** What puts an end to the application: a handler that does not return, or a layer pop after two
      detachments. */
  predicate Stops(app: App, t: Turn, json: string -> Request)
    requires Inv(app) && Possible(t)
  {
    match t
    case Update(m) => Throws(app, m, json)
    case Poll(answers) => EndsInThirdPop(Drain(app, false, answers, 0))
    case Input(_) => false
  }

  lemma TurnDefined(app: App, t: Turn, json: string -> Request, games: string -> Option<string>)
    requires Inv(app) && Possible(t)
    ensures var a := TurnStep(app, t, json, games);
      && app.nextId <= a.nextId
      && (a.nextId <= L.U32 ==> (a.defined <==> app.defined && !Stops(app, t, json)))
  {
    match t
    case Update(m) =>
      if app.defined { var h := N.Received(app, m, json, games); }
    case Poll(answers) =>
      DrainOutcome(app, false, answers, 0);
      if app.defined && Drain(app, false, answers, 0).app.nextId <= L.U32 { DrainResult(app, answers); }
    case Input(_) =>
  }

  /** No turn of a run stops the application it meets. */
  predicate NeverStops(app: App, turns: seq<Turn>, json: string -> Request, games: string -> Option<string>)
    requires Inv(app) && AllPossible(turns)
  {
    turns != [] ==>
      var last := |turns| - 1;
      FrontPossible(turns);
      && NeverStops(app, turns[..last], json, games)
      && !Stops(RunTurns(app, turns[..last], json, games), turns[last], json)
  }

  /** In every run in which fewer than 2^32 overlays are made, the application has gone on if and only if no
      turn so far has met a handler that does not return or a layer pop after two detachments. */
  lemma {:induction false} RunDefined(app: App, turns: seq<Turn>, json: string -> Request,
                                      games: string -> Option<string>)
    requires Inv(app) && AllPossible(turns) && app.defined
    requires RunTurns(app, turns, json, games).nextId <= L.U32
    ensures RunTurns(app, turns, json, games).defined <==> NeverStops(app, turns, json, games)
  {
    if turns != [] {
      var last := |turns| - 1;
      FrontPossible(turns);
      TurnDefined(RunTurns(app, turns[..last], json, games), turns[last], json, games);
      RunDefined(app, turns[..last], json, games);
    }
  }
}
