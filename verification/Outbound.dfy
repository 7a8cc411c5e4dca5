/** What a run of the main loop passes to send: texts are only added, and none is empty. */
module Outbound {
  import opened AppRuns
  import opened BattleState
  import opened Draining
  import opened EventLoop
  import opened Types
  import C = PsClient
  import N = Network

  /** More has been said, and nothing empty. */
  ghost predicate Said(app: App, a: App) {
    app.sends <= a.sends && forall k | |app.sends| <= k < |a.sends| :: a.sends[k] != ""
  }

  lemma SaidOn(app: App, b: App, a: App)
    requires Said(app, b) && Said(b, a)
    ensures Said(app, a)
  {
    forall k | |app.sends| <= k < |a.sends| ensures a.sends[k] != "" {
      if k < |b.sends| { assert a.sends[k] == b.sends[k]; }
    }
  }

  /** Texts of a room's order, of a login, a join or a search. */
  lemma CommandSays(l: Layer, id: nat, cmd: string, client: C.Client, token: string)
    ensures forall t | t in OnCommand(l, id, cmd, client, token).sends :: t != ""
  {
    hide Tokenize;
  }

  lemma ReactSays(app: App, id: nat, r: Reaction)
    requires forall t | t in r.sends :: t != ""
    ensures Said(app, React(app, id, r))
  {
    assert forall k | 0 <= k < |r.sends| :: r.sends[k] in r.sends;
  }

  lemma HandleSays(app: App, e: Event)
    ensures Said(app, Handle(app, e))
  {
  }

  lemma ProcessSays(app: App, e: Event, token: string)
    requires Settled(app) && MayHandle(app, e)
    ensures Said(app, Process(app, e, token))
  {
    HandleSettled(app, e);
    HandleSays(app, e);
    var h := Handle(app, e);
    var n := |h.stack.layers|;
    if h.defined && n > 0 && e.Command? {
      var id := h.stack.layers[n - 1].id;
      CommandsGoToTheTop(h, e.text, token);
      CommandSays(h.layers[id], id, e.text, h.client, token);
      hide Handle, OnCommand, Dispatch, Settled, Said, React;
      ReactSays(h, id, OnCommand(h.layers[id], id, e.text, h.client, token));
      SaidOn(app, h, Process(app, e, token));
    } else if h.defined {
      Unheard(h, e, n, token);
    }
  }

  lemma {:induction false} DrainSays(app: App, exit: bool, answers: nat -> string, n: nat)
    requires Inv(app)
    ensures Said(app, Drain(app, exit, answers, n).app)
    decreases Measure(app.queue)
  {
    if app.queue != [] && app.defined && !exit {
      var b := DrainNext(app, answers, n);
      ProcessSays(app.(queue := app.queue[1..]), app.queue[0], answers(n));
      hide Process;
      DrainSays(b, app.queue[0] == Command("q"), answers, n + 1);
      SaidOn(app, b, Drain(app, false, answers, n).app);
    }
  }

  lemma MessageSays(l: Layer, id: nat, m: Message, json: string -> Request, games: string -> Option<string>)
    requires N.Deliverable(m)
    ensures forall t | t in N.OnMessage(l, id, m, json, games).sends :: t != ""
  {
    hide Apply;
  }

  lemma TakeSays(app: App, id: nat, h: N.Heard)
    requires forall t | t in h.sends :: t != ""
    ensures Said(app, N.Take(app, id, h))
  {
    assert forall k | 0 <= k < |h.sends| :: h.sends[k] in h.sends;
  }

  lemma HearSays(app: App, m: Message, i: nat, json: string -> Request, games: string -> Option<string>)
    requires Known(app) && i <= |app.stack.layers| && N.Deliverable(m)
    ensures Said(app, N.Hear(app, m, i, json, games))
  {
    hide N.Hear, N.OnMessage, N.Take, N.Fits, Apply;
    var h := N.OneListener(app, m, i, json, games);
    var p := N.Listener(app, i);
    if p > 0 {
      var id := app.stack.layers[p - 1].id;
      MessageSays(app.layers[id], id, m, json, games);
      TakeSays(app, id, h);
    }
  }

  lemma TurnSays(app: App, t: Turn, json: string -> Request, games: string -> Option<string>)
    requires Inv(app) && Possible(t)
    ensures Said(app, TurnStep(app, t, json, games))
  {
    hide N.Hear;
    match t
    case Update(m) =>
      if app.defined {
        var b := app.(client := C.OnMessage(app.client, m));
        HearSays(b, m, |app.stack.layers|, json, games);
        Silent(app, b, TurnStep(app, t, json, games));
      }
    case Poll(answers) => DrainSays(app, false, answers, 0);
    case Input(cmd) => Silent(app, Submit(app, Command(cmd)), Submit(app, Command(cmd)));
  }

  /** A step that says nothing. */
  lemma Silent(app: App, b: App, a: App)
    requires b.sends == app.sends
    ensures Said(app, b) && (Said(b, a) ==> Said(app, a))
  {
  }
}
