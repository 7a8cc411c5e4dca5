/** An ordinary session of the whole client, made of typed lines and frames: log in, search a battle, see it end.
    The layer stack loses the menu when the battle ends, and has no defined next pop after that. */
module PlainSession {
  import opened AppRuns
  import opened BattleState
  import opened ClientRuns
  import opened Draining
  import opened EndToEnd
  import opened EventLoop
  import opened Types
  import C = PsClient
  import K = Commands
  import L = LayerStack
  import I = Inbound
  import N = Network
  import P = Parser
  import R = SpscRing
  import W = WriteStrand

  const MENU := L.Entry(0, false)

  /** Nothing is queued, and these are the layers. */
  ghost predicate Rests(app: App, entries: seq<L.Entry>, gone: nat) {
    && Inv(app) && app.queue == [] && app.defined
    && app.stack.layers == entries && L.Gone(app.stack) == gone
  }

  ghost predicate AtMenu(app: App, gone: nat) {
    Rests(app, [MENU], gone) && 0 in app.layers && app.layers[0].Menu? && app.running
  }

  // ---- one event at a time ----

  lemma ProcessQuiet(app: App, e: Event, token: string)
    requires Settled(app) && MayHandle(app, e) && !e.Command?
    ensures Process(app, e, token) == Handle(app, e)
  {
    HandleSettled(app, e);
    var h := Handle(app, e);
    if h.defined { Unheard(h, e, |h.stack.layers|, token); }
  }

  lemma ProcessCommand(app: App, cmd: string, token: string)
    requires Settled(app) && Stacked(app) && app.defined && app.stack.layers != [] && cmd != "q"
    ensures var id := app.stack.layers[|app.stack.layers| - 1].id;
      Process(app, Command(cmd), token) == React(app, id, OnCommand(app.layers[id], id, cmd, app.client, token))
  {
    CommandsGoToTheTop(app, cmd, token);
  }

  lemma DrainDone(app: App, answers: nat -> string, n: nat)
    requires Inv(app) && (app.queue == [] || !app.defined)
    ensures Drain(app, false, answers, n).app == app
  {
  }

  /** The overlay that is pushed for an event. */
  lemma PushDrain(app: App, e: Event, layer: Layer, entries: seq<L.Entry>, gone: nat, answers: nat -> string, n: nat)
    requires Rests(app.(queue := []), entries, gone) && app.queue == [e] && Inv(app)
    requires (e.Login? && layer == LoginOverlay(false, false))
             || (e.BattleSearch? && layer == BattleLayer(FRESH, "", false))
    ensures var s := Drain(app, false, answers, n).app;
      && Rests(s, entries + [L.Entry(app.nextId, true)], gone)
      && s.layers == app.layers[app.nextId := layer] && s.nextId == app.nextId + 1
      && s.client == app.client && s.running == app.running
  {
    var a := app.(queue := []);
    assert app.queue[1..] == [];
    var b := DrainNext(app, answers, n);
    ProcessQuiet(a, e, answers(n));
    L.GoneStep(app.stack, L.PushOverlay(app.nextId));
    DrainDone(b, answers, n + 1);
  }

  /** A layer pop takes the entry it ends at. */
  lemma PopDrain(app: App, e: Event, v: nat, gone: nat, answers: nat -> string, n: nat)
    requires Rests(app.(queue := []), app.stack.layers, gone) && app.queue == [e] && Inv(app) && e.LayerPop?
    requires var op := if e.isOverlay then L.PopOverlay(e.id) else L.PopLayer(e.id);
      L.Defined(app.stack, op) && L.Victim(app.stack, op) == v < |app.stack.layers|
    ensures var s := Drain(app, false, answers, n).app;
      && Rests(s, L.RemoveAt(app.stack.layers, v), gone + 1)
      && s.layers == app.layers && s.nextId == app.nextId && s.client == app.client && s.running == app.running
  {
    var a := app.(queue := []);
    assert app.queue[1..] == [];
    var op := if e.isOverlay then L.PopOverlay(e.id) else L.PopLayer(e.id);
    var b := DrainNext(app, answers, n);
    ProcessQuiet(a, e, answers(n));
    L.GoneStep(app.stack, op);
    DrainDone(b, answers, n + 1);
  }

  /** The event a menu line submits. */
  function Asked(cmd: string): Event { if cmd == "1" then BattleSearch else Login(false) }

  /** The menu answers a line with an event. */
  lemma MenuAnswers(app: App, cmd: string, gone: nat, answers: nat -> string) returns (b: App)
    requires AtMenu(app, gone) && (cmd == "1" || cmd == "2")
    ensures var asked := Submit(app, Command(cmd));
      && Inv(asked) && b == app.(queue := [Asked(cmd)]) && Inv(b)
      && Drain(asked, false, answers, 0).app == Drain(b, false, answers, 1).app
  {
    hide Settled, Stacked, Drain, Process, Measure;
    var asked := Submit(app, Command(cmd));
    SubmitInv(app, Command(cmd));
    assert asked.queue[1..] == [] && asked.(queue := []) == app;
    b := DrainNext(asked, answers, 0);
    ProcessCommand(app, cmd, answers(0));
    assert OnCommand(Menu, 0, cmd, app.client, answers(0)) == Reaction(Menu, app.client, [], Some(Asked(cmd)), true);
    assert app.layers[0 := Menu] == app.layers && app.sends + [] == app.sends;
  }

  /** What one menu line brings up. */
  lemma MenuOrder(app: App, cmd: string, layer: Layer, gone: nat, answers: nat -> string)
    requires AtMenu(app, gone)
    requires (cmd == "1" && layer == BattleLayer(FRESH, "", false))
             || (cmd == "2" && layer == LoginOverlay(false, false))
    ensures var asked := Submit(app, Command(cmd));
      && Inv(asked)
      && var s := Drain(asked, false, answers, 0).app;
         && Rests(s, [MENU, L.Entry(app.nextId, true)], gone)
         && s.layers == app.layers[app.nextId := layer] && s.nextId == app.nextId + 1
         && s.client == app.client && s.running == app.running
  {
    hide Drain;
    var b := MenuAnswers(app, cmd, gone, answers);
    assert b.(queue := []) == app;
    PushDrain(b, Asked(cmd), layer, [MENU], gone, answers, 1);
    assert [MENU] + [L.Entry(app.nextId, true)] == [MENU, L.Entry(app.nextId, true)];
  }

  // ---- the stages ----

  lemma Boot(answers: nat -> string)
    ensures Inv(NEW_APP)
    ensures var s := Drain(NEW_APP, false, answers, 0).app;
      AtMenu(s, 0) && s.nextId == 1 && s.client == C.NEW_CLIENT
  {
    var a := NEW_APP.(queue := []);
    assert NEW_APP.queue[1..] == [];
    var b := DrainNext(NEW_APP, answers, 0);
    ProcessQuiet(a, LayerPush(0, false), answers(0));
    L.GoneStep(L.EMPTY, L.PushLayer(0));
    assert L.Step(L.EMPTY, L.PushLayer(0)).layers == [MENU];
    DrainDone(b, answers, 1);
  }

  /** A challenge polled at the menu. */
  lemma Challenged(app: App, m: Message, json: string -> Request, games: string -> Option<string>)
    requires AtMenu(app, 0) && !app.client.loggedIn
    requires m.kind == "challstr" && N.Deliverable(m)
    ensures var s := N.Receive(app, m, json, games);
      AtMenu(s, 0) && s.nextId == app.nextId && s.client.challenge != "" && s.client.outbox == app.client.outbox
  {
    ReceiveInv(app, m, json, games);
    assert N.Listener(app, 1) == 1;
    var h := N.Received(app, m, json, games);
    assert app.layers[0 := Menu] == app.layers;
  }

  predicate OneWord(line: string) {
    line != "q" && |Tokenize(line)| == 1 && (Tokenize(line)[0] != "" ==> Tokenize(line)[0][0] != NUL)
  }

  ghost predicate AtPrompt(app: App) {
    && Rests(app, [MENU, L.Entry(1, true)], 0) && app.running
    && 0 in app.layers && app.layers[0].Menu? && 1 in app.layers && app.layers[1] == LoginOverlay(false, false)
  }

  /** A name typed at the prompt. */
  lemma Named(app: App, name: string, answers: nat -> string)
    requires AtPrompt(app) && OneWord(name)
    ensures Inv(Submit(app, Command(name)))
    ensures var r := LoginCommand(LoginOverlay(false, false), 1, name, app.client, answers(0));
      var s := Drain(Submit(app, Command(name)), false, answers, 0).app;
      && r.layer.LoginOverlay? && r.submits == None
      && s == app.(layers := app.layers[1 := r.layer], client := r.client)
      && Rests(s, [MENU, L.Entry(1, true)], 0)
  {
    hide Drain, Tokenize;
    var asked := Submit(app, Command(name));
    SubmitInv(app, Command(name));
    OneReaction(LoginOverlay(false, false), 1, name, app.client, answers(0));
    var r := LoginCommand(LoginOverlay(false, false), 1, name, app.client, answers(0));
    FirstWordNoLogin(name, app.client, answers(0));
    var b := DrainNext(asked, answers, 0);
    assert asked.queue[1..] == [] && asked.(queue := []) == app;
    ProcessCommand(app, name, answers(0));
    hide LoginCommand;
    assert app.sends + [] == app.sends;
    DrainDone(b, answers, 1);
  }

  lemma FirstWordNoLogin(name: string, client: C.Client, token: string)
    ensures var r := LoginCommand(LoginOverlay(false, false), 1, name, client, token);
      r.layer.LoginOverlay? && r.submits == None && r.sends == []
  {
    hide Tokenize;
  }

  /** A password typed after it. */
  lemma LoggedIn(app: App, s: App, name: string, pass: string, unused: string, answers: nat -> string)
    requires AtPrompt(app) && Rests(s, [MENU, L.Entry(1, true)], 0)
    requires var r := LoginCommand(LoginOverlay(false, false), 1, name, app.client, unused);
      s == app.(layers := app.layers[1 := r.layer], client := r.client) && r.layer.LoginOverlay?
    requires app.client.challenge != "" && OneWord(name) && OneWord(pass) && answers(0) != ""
    ensures Inv(Submit(s, Command(pass)))
    ensures var t := Drain(Submit(s, Command(pass)), false, answers, 0).app;
      AtMenu(t, 1) && t.nextId == app.nextId && |t.client.outbox| == |app.client.outbox| + 1
  {
    hide Stacked, Drain, Tokenize, LoginCommand;
    SubmitInv(s, Command(pass));
    K.LoginFlow(1, name, pass, app.client, unused, answers(0));
    var c := PassTyped(Submit(s, Command(pass)), pass, s.layers[1], answers);
    Popped(c, answers);
  }

  /** The prompt takes itself off. */
  lemma Popped(c: App, answers: nat -> string)
    requires Inv(c) && c.queue == [LayerPop(1, true)] && c.nextId > 0
    requires Rests(c.(queue := []), [MENU, L.Entry(1, true)], 0)
    ensures var s := Drain(c, false, answers, 1).app;
      && Rests(s, [MENU], 1) && s.layers == c.layers && s.nextId == c.nextId && s.client == c.client
      && s.running == c.running
  {
    assert c.stack.offset == 1;
    assert L.Victim(c.stack, L.PopOverlay(1)) == 1;
    PopDrain(c, LayerPop(1, true), 1, 0, answers, 1);
    assert L.RemoveAt(c.stack.layers, 1) == [MENU];
  }

  lemma RestsEmptied(c: App)
    requires Inv(c) && c.defined && c.queue != [] && !c.queue[0].LayerPush?
    ensures Rests(c.(queue := []), c.stack.layers, L.Gone(c.stack))
  {
  }

  lemma LoginHandled(prompt: Layer, line: string, client: C.Client, token: string)
    requires prompt.LoginOverlay?
    ensures OnCommand(prompt, 1, line, client, token) == LoginCommand(prompt, 1, line, client, token)
  {
  }

  lemma PassTyped(b: App, pass: string, prompt: Layer, answers: nat -> string) returns (c: App)
    requires Inv(b) && b.queue == [Command(pass)] && pass != "q" && b.defined
    requires b.stack.layers == [MENU, L.Entry(1, true)] && L.Gone(b.stack) == 0
    requires prompt.LoginOverlay? && 1 in b.layers && b.layers[1] == prompt
    requires LoginCommand(prompt, 1, pass, b.client, answers(0)).submits == Some(LayerPop(1, true))
    ensures var r := LoginCommand(prompt, 1, pass, b.client, answers(0));
      c == b.(queue := [LayerPop(1, true)], layers := b.layers[1 := r.layer], client := r.client,
              sends := b.sends + r.sends)
    ensures Inv(c) && Drain(b, false, answers, 0).app == Drain(c, false, answers, 1).app
    ensures Rests(c.(queue := []), [MENU, L.Entry(1, true)], 0)
  {
    hide Drain, Tokenize, LoginWord, LoginCommand, Settled;
    OneReaction(prompt, 1, pass, b.client, answers(0));
    LoginHandled(prompt, pass, b.client, answers(0));
    c := DrainNext(b, answers, 0);
    assert b.queue[1..] == [];
    ProcessCommand(b.(queue := []), pass, answers(0));
    RestsEmptied(c);
  }

  /** The end of a battle, heard while the battle is on top. */
  lemma BattleEnds(app: App, id: nat, m: Message, gone: nat, json: string -> Request, games: string -> Option<string>)
    requires Inv(app) && app.defined && app.queue == [] && app.stack.layers != [] && L.Gone(app.stack) == gone
    requires app.stack.layers[|app.stack.layers| - 1].id == id && id in app.layers && app.layers[id].BattleLayer?
    requires (m.kind == "win" || m.kind == "tie") && N.Deliverable(m)
    ensures var s := N.Receive(app, m, json, games);
      && Inv(s) && s.defined && s.queue == [LayerPop(id, false)] && s.stack == app.stack && s.nextId == app.nextId
      && s.running == app.running
      && s.layers.Keys == app.layers.Keys && s.layers[id].BattleLayer?
      && Rests(s.(queue := []), app.stack.layers, gone)
  {
    hide Apply, Drain;
    ReceiveInv(app, m, json, games);
    EndHeard(app.layers[id], id, m, json, games);
    assert N.Listener(app, |app.stack.layers|) == |app.stack.layers|;
    var h := N.Received(app, m, json, games);
    hide N.Fits, N.Receive, N.Listener, N.OnMessage, Inv;
    WithoutQueue(app, N.Receive(app, m, json, games));
  }

  lemma EndHeard(l: Layer, id: nat, m: Message, json: string -> Request, games: string -> Option<string>)
    requires l.BattleLayer? && (m.kind == "win" || m.kind == "tie") && N.Deliverable(m)
    ensures var h := N.OnMessage(l, id, m, json, games);
      h.ok && h.submits == Some(LayerPop(id, false)) && h.layer.BattleLayer?
  {
  }

  /** Emptying a queue that starts with no layer push. */
  lemma WithoutQueue(app: App, s: App)
    requires Inv(app) && Inv(s) && s.stack == app.stack && s.nextId == app.nextId && s.layers.Keys == app.layers.Keys
    requires app.queue == [] && (forall id | id in app.layers :: app.layers[id].Menu? <==> s.layers[id].Menu?)
    ensures Inv(s.(queue := []))
  {
  }

  /** The first end takes the menu and leaves the battle. */
  lemma MenuTaken(app: App, answers: nat -> string)
    requires Rests(app.(queue := []), [MENU, L.Entry(2, true)], 1) && app.queue == [LayerPop(2, false)]
    requires Inv(app) && app.nextId == 3
    ensures var s := Drain(app, false, answers, 0).app;
      Rests(s, [L.Entry(2, true)], 2) && s.layers == app.layers && s.nextId == 3 && s.running == app.running
  {
    OffsetsTaken(app);
    assert L.Victim(app.stack, L.PopLayer(2)) == 0;
    PopDrain(app, LayerPop(2, false), 0, 1, answers, 0);
    assert L.RemoveAt(app.stack.layers, 0) == [L.Entry(2, true)];
  }

  /** The next one has nowhere to look. */
  lemma NoMorePops(app: App, answers: nat -> string)
    requires Rests(app.(queue := []), [L.Entry(2, true)], 2) && app.queue == [LayerPop(2, false)]
    requires Inv(app) && app.nextId == 3
    ensures !Drain(app, false, answers, 0).app.defined
  {
    OffsetsTaken(app);
    var b := DrainNext(app, answers, 0);
    assert Drain(b, false, answers, 1).app == b;
  }

  // ---- the session ----

  predicate Ends(m: Message) { (m.kind == "win" || m.kind == "tie") && N.Deliverable(m) }

  predicate Challenge(m: Message) { m.kind == "challstr" && N.Deliverable(m) }

  /** A single battle left on the stack, the menu gone. */
  ghost predicate OnlyBattle(s: App) {
    && Rests(s, [L.Entry(2, true)], 2) && s.nextId == 3 && s.running
    && 2 in s.layers && s.layers[2].BattleLayer? && s.stack.offset == L.U32 - 1
  }

  /** The turns of the main loop: one line a round, and each drain before the next line. */
  function Session(c: Message, name: string, pass: string, end: Message, answers: nat -> string): seq<Turn> {
    [Poll(answers), Update(c), Poll(answers), Input("2"), Poll(answers), Input(name), Poll(answers), Input(pass),
     Poll(answers), Input("1"), Poll(answers), Update(end), Poll(answers)]
  }

  lemma Start(blank: seq<Message>, json: string -> Request, games: string -> Option<string>) returns (s: Client)
    requires |blank| == I.CAPACITY
    ensures Reaches(blank, s, [], json, games) && MayPoll(s) && s.app == NEW_APP
  {
    NewAppInv();
    R.InitInv(blank);
    s := Client(I.State(R.Init(blank), I.Armed, [], [], []), W.IDLE, NEW_APP, EndToEnd.Polling, []);
    hide R.Inv;
    assert Exec(blank, [], json, games) == Some(s) && Turns(blank, [], json, games) == [];
  }

  /** A round without a message or a line. */
  lemma Round(blank: seq<Message>, s: Client, ts: seq<Turn>, answers: nat -> string, json: string -> Request,
              games: string -> Option<string>) returns (t: Client)
    requires Reaches(blank, s, ts, json, games) && MayPoll(s)
    ensures Reaches(blank, t, ts + [Poll(answers)], json, games) && Quiet(t) && t.stage.Reading?
    ensures t.app == Drain(s.app, false, answers, 0).app
  {
    hide Reaches, Quiet, Inv, Drain;
    var u := EmptyPoll(blank, s, ts, json, games);
    t := QueueDrained(blank, u, ts, answers, json, games);
  }

  /** A round with a line. */
  lemma LineRound(blank: seq<Message>, s: Client, ts: seq<Turn>, answers: nat -> string, cmd: string,
                  json: string -> Request, games: string -> Option<string>) returns (t: Client)
    requires Reaches(blank, s, ts, json, games) && MayPoll(s)
    requires var a := Drain(s.app, false, answers, 0).app; a.defined && a.running
    ensures Reaches(blank, t, ts + [Poll(answers)] + [Input(cmd)], json, games) && MayPoll(t)
    ensures t.app == Submit(Drain(s.app, false, answers, 0).app, Command(cmd))
  {
    hide Reaches, Inv, Drain, RingQuiet;
    var u := Round(blank, s, ts, answers, json, games);
    t := LineTyped(blank, u, ts + [Poll(answers)], cmd, json, games);
  }

  /** A message at rest, and then the rounds go on. */
  lemma MessageRound(blank: seq<Message>, s: Client, ts: seq<Turn>, raw: string, m: Message, json: string -> Request,
                     games: string -> Option<string>) returns (t: Client)
    requires Reaches(blank, s, ts, json, games) && MayPoll(s) && P.Messages(raw) == [m] && N.Deliverable(m)
    requires N.Receive(s.app, m, json, games).defined
    ensures Reaches(blank, t, ts + [Update(m)], json, games) && MayPoll(t)
    ensures t.app == N.Receive(s.app, m, json, games)
  {
    hide Reaches, Inv, N.Receive, RingQuiet, P.Messages;
    t := OneMessageIn(blank, s, ts, raw, m, json, games);
  }

  /** The client comes up, a challenge arrives, and the login prompt is asked for. */
  lemma ToPrompt(blank: seq<Message>, raw: string, c: Message, answers: nat -> string, json: string -> Request,
                 games: string -> Option<string>) returns (s: Client, app: App)
    requires |blank| == I.CAPACITY && Challenge(c) && P.Messages(raw) == [c]
    ensures Reaches(blank, s, [] + [Poll(answers)] + [Update(c)] + [Poll(answers)] + [Input("2")], json, games)
    ensures MayPoll(s) && s.app == Submit(app, Command("2"))
    ensures AtMenu(app, 0) && app.nextId == 1 && app.client.challenge != "" && app.client.outbox == []
  {
    hide Reaches, Drain, N.Receive, P.Messages, RingQuiet, Inv, Rests;
    var s0 := Start(blank, json, games);
    Boot(answers);
    MenuGoesOn(Drain(NEW_APP, false, answers, 0).app, 0);
    var s1 := Round(blank, s0, [], answers, json, games);
    Challenged(s1.app, c, json, games);
    app := N.Receive(s1.app, c, json, games);
    MenuGoesOn(app, 0);
    var s2 := MessageRound(blank, s1, [] + [Poll(answers)], raw, c, json, games);
    DrainDone(app, answers, 0);
    s := LineRound(blank, s2, [] + [Poll(answers)] + [Update(c)], answers, "2", json, games);
  }

  lemma MenuGoesOn(app: App, gone: nat)
    requires AtMenu(app, gone)
    ensures app.defined && app.running && app.queue == [] && Inv(app) && Known(app)
  {
  }

  /** The name and the password are typed, one a round, and the line that searches a battle. */
  lemma ToSearch(blank: seq<Message>, s: Client, ts: seq<Turn>, app: App, name: string, pass: string,
                 answers: nat -> string, json: string -> Request, games: string -> Option<string>)
    returns (t: Client, menu: App)
    requires Reaches(blank, s, ts, json, games) && MayPoll(s) && s.app == Submit(app, Command("2"))
    requires AtMenu(app, 0) && app.nextId == 1 && app.client.challenge != "" && app.client.outbox == []
    requires OneWord(name) && OneWord(pass) && answers(0) != ""
    ensures Reaches(blank, t, ts + [Poll(answers)] + [Input(name)] + [Poll(answers)] + [Input(pass)] + [Poll(answers)]
                              + [Input("1")], json, games)
    ensures MayPoll(t) && t.app == Submit(menu, Command("1"))
    ensures AtMenu(menu, 1) && menu.nextId == 2 && |menu.client.outbox| == 1
  {
    hide Reaches, Drain, RingQuiet, Inv, LoginCommand, Tokenize;
    MenuOrder(app, "2", LoginOverlay(false, false), 0, answers);
    var prompt := Drain(s.app, false, answers, 0).app;
    var s1 := LineRound(blank, s, ts, answers, name, json, games);
    Named(prompt, name, answers);
    var named := Drain(s1.app, false, answers, 0).app;
    var s2 := LineRound(blank, s1, ts + [Poll(answers)] + [Input(name)], answers, pass, json, games);
    LoggedIn(prompt, named, name, pass, answers(0), answers);
    menu := Drain(s2.app, false, answers, 0).app;
    t := LineRound(blank, s2, ts + [Poll(answers)] + [Input(name)] + [Poll(answers)] + [Input(pass)], answers, "1",
                   json, games);
  }

  /** The battle comes up, and its end takes the menu. */
  lemma ToEnd(blank: seq<Message>, s: Client, ts: seq<Turn>, menu: App, raw: string, end: Message,
              answers: nat -> string, json: string -> Request, games: string -> Option<string>) returns (t: Client)
    requires Reaches(blank, s, ts, json, games) && MayPoll(s) && s.app == Submit(menu, Command("1"))
    requires AtMenu(menu, 1) && menu.nextId == 2 && Ends(end) && P.Messages(raw) == [end]
    ensures Reaches(blank, t, ts + [Poll(answers)] + [Update(end)] + [Poll(answers)], json, games)
    ensures MayPoll(t) && OnlyBattle(t.app)
  {
    hide Reaches, Drain, N.Receive, RingQuiet, Inv, P.Messages;
    MenuOrder(menu, "1", BattleLayer(FRESH, "", false), 1, answers);
    var s1 := Round(blank, s, ts, answers, json, games);
    BattleEnds(s1.app, 2, end, 1, json, games);
    var s2 := MessageRound(blank, s1, ts + [Poll(answers)], raw, end, json, games);
    MenuTaken(s2.app, answers);
    t := Round(blank, s2, ts + [Poll(answers)] + [Update(end)], answers, json, games);
    BattleAlone(t.app);
  }

  lemma BattleAlone(app: App)
    requires Rests(app, [L.Entry(2, true)], 2) && app.nextId == 3
    ensures app.defined && app.stack.offset == L.U32 - 1
  {
    OffsetsTaken(app);
  }

  lemma ToAgain(blank: seq<Message>, s: Client, ts: seq<Turn>, raw: string, again: Message, answers: nat -> string,
                json: string -> Request, games: string -> Option<string>) returns (t: Client)
    requires Reaches(blank, s, ts, json, games) && MayPoll(s) && OnlyBattle(s.app)
    requires Ends(again) && P.Messages(raw) == [again]
    ensures Reaches(blank, t, ts + [Update(again)] + [Poll(answers)], json, games) && !t.app.defined
  {
    hide Reaches, Drain, N.Receive, RingQuiet, Inv, P.Messages;
    BattleEnds(s.app, 2, again, 2, json, games);
    var s1 := MessageRound(blank, s, ts, raw, again, json, games);
    NoMorePops(s1.app, answers);
    t := Round(blank, s1, ts + [Update(again)], answers, json, games);
  }

  lemma SessionIs(c: Message, name: string, pass: string, end: Message, answers: nat -> string)
    ensures Session(c, name, pass, end, answers) ==
      [] + [Poll(answers)] + [Update(c)] + [Poll(answers)] + [Input("2")]
      + [Poll(answers)] + [Input(name)] + [Poll(answers)] + [Input(pass)] + [Poll(answers)] + [Input("1")]
      + [Poll(answers)] + [Update(end)] + [Poll(answers)]
  {
  }

  /** One login, one battle and its end, as any user would go through them: there is a run of the client, with
      these frames, these lines and these turns, after which the menu has been taken off the stack and the battle
      that is over is left on it; and when one more end is heard, the run has no defined next step. */
  lemma MenuLost(blank: seq<Message>, rawC: string, c: Message, name: string, pass: string, rawE: string,
                 end: Message, rawA: string, again: Message, answers: nat -> string, json: string -> Request,
                 games: string -> Option<string>) returns (s: Client, t: Client)
    requires |blank| == I.CAPACITY && OneWord(name) && OneWord(pass) && answers(0) != ""
    requires P.Messages(rawC) == [c] && P.Messages(rawE) == [end] && P.Messages(rawA) == [again]
    requires Challenge(c) && Ends(end) && Ends(again)
    ensures Reaches(blank, s, Session(c, name, pass, end, answers), json, games) && OnlyBattle(s.app)
    ensures Reaches(blank, t, Session(c, name, pass, end, answers) + [Update(again)] + [Poll(answers)], json, games)
            && !t.app.defined
  {
    hide Reaches, Session, OnlyBattle, MayPoll, AtMenu, P.Messages, OneWord, Ends, Challenge;
    var s1, app := ToPrompt(blank, rawC, c, answers, json, games);
    var ts := [] + [Poll(answers)] + [Update(c)] + [Poll(answers)] + [Input("2")];
    var s2, menu := ToSearch(blank, s1, ts, app, name, pass, answers, json, games);
    ts := ts + [Poll(answers)] + [Input(name)] + [Poll(answers)] + [Input(pass)] + [Poll(answers)] + [Input("1")];
    s := ToEnd(blank, s2, ts, menu, rawE, end, answers, json, games);
    SessionIs(c, name, pass, end, answers);
    t := ToAgain(blank, s, Session(c, name, pass, end, answers), rawA, again, answers, json, games);
  }
}
