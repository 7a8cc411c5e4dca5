/** The session inside the application: every run of the application is a run of the login handshake, so what
    holds of the handshake holds of whatever a user types. */
module Logins {
  import opened Types
  import opened AppRuns
  import opened BattleState
  import opened Draining
  import opened EventLoop
  import C = PsClient
  import N = Network

  ghost predicate Local(es: seq<C.Event>) { C.Possible(es) && C.Receipts(es) == [] }

  lemma OneEvent(c: C.Client, e: C.Event)
    requires !e.Receive?
    ensures Local([e]) && C.Run(c, [e]) == C.Step(c, e)
  {
    assert [e][1..] == [];
  }

  lemma TwoEvents(c: C.Client, e: C.Event, f: C.Event)
    requires !e.Receive? && !f.Receive?
    ensures Local([e, f]) && C.Run(c, [e, f]) == C.Step(C.Step(c, e), f)
  {
    OneEvent(c, e);
    OneEvent(C.Step(c, e), f);
    assert [e, f] == [e] + [f];
    C.RunConcat(c, [e], [f]);
    C.ReceiptsConcat([e], [f]);
  }

  /** What a command does to the session, as events of the handshake. */
  lemma CommandSession(l: Layer, id: nat, cmd: string, client: C.Client, token: string) returns (es: seq<C.Event>)
    ensures Local(es) && C.Run(client, es) == OnCommand(l, id, cmd, client, token).client
  {
    es := [];
    if l.LoginOverlay? && |Tokenize(cmd)| == 1 && C.Acceptable(Tokenize(cmd)[0]) {
      var word := Tokenize(cmd)[0];
      if !l.enteredUsername {
        es := [C.EnterUsername(word)];
        OneEvent(client, C.EnterUsername(word));
      } else {
        es := [C.EnterPassword(word), C.Login(token)];
        TwoEvents(client, C.EnterPassword(word), C.Login(token));
      }
    }
  }

  lemma ProcessSession(app: App, e: Event, token: string) returns (es: seq<C.Event>)
    requires Settled(app) && MayHandle(app, e)
    ensures Local(es) && C.Run(app.client, es) == Process(app, e, token).client
  {
    es := [];
    HandleSettled(app, e);
    HandleKeeps(app, e);
    var h := Handle(app, e);
    var n := |h.stack.layers|;
    if h.defined && n > 0 && e.Command? {
      var id := h.stack.layers[n - 1].id;
      CommandsGoToTheTop(h, e.text, token);
      es := CommandSession(h.layers[id], id, e.text, h.client, token);
    } else if h.defined {
      Unheard(h, e, n, token);
    }
  }

  lemma {:induction false} DrainSession(app: App, exit: bool, answers: nat -> string, n: nat)
    returns (es: seq<C.Event>)
    requires Inv(app)
    ensures Local(es) && C.Run(app.client, es) == Drain(app, exit, answers, n).app.client
    decreases Measure(app.queue)
  {
    hide Process, Inv;
    es := [];
    if app.queue != [] && app.defined && !exit {
      var b := DrainNext(app, answers, n);
      var first := ProcessSession(app.(queue := app.queue[1..]), app.queue[0], answers(n));
      var rest := DrainSession(b, app.queue[0] == Command("q"), answers, n + 1);
      es := first + rest;
      C.RunConcat(app.client, first, rest);
      C.ReceiptsConcat(first, rest);
    }
  }

  lemma TurnSession(app: App, t: Turn, json: string -> Request, games: string -> Option<string>)
    returns (es: seq<C.Event>)
    requires Inv(app) && Possible(t)
    ensures C.Possible(es) && C.Receipts(es) == Polled(HearingOf(app, t))
    ensures C.Run(app.client, es) == TurnStep(app, t, json, games).client
  {
    es := [];
    match t
    case Update(m) =>
      if app.defined {
        var h := N.Received(app, m, json, games);
        es := [C.Receive(m)];
        assert es[1..] == [];
      }
    case Poll(answers) => es := DrainSession(app, false, answers, 0);
    case Input(_) =>
  }

  /** Every run of the application is a run of the login handshake that receives exactly the messages polled. */
  lemma {:induction false} SessionRun(app: App, turns: seq<Turn>, json: string -> Request,
                                      games: string -> Option<string>) returns (es: seq<C.Event>)
    requires Inv(app) && AllPossible(turns)
    ensures C.Possible(es) && C.Receipts(es) == Polled(Hearings(app, turns, json, games))
    ensures C.Run(app.client, es) == RunTurns(app, turns, json, games).client
  {
    hide Inv, TurnStep, HearingOf;
    es := [];
    if turns != [] {
      var last := |turns| - 1;
      FrontPossible(turns);
      var front := SessionRun(app, turns[..last], json, games);
      var b := RunTurns(app, turns[..last], json, games);
      var more := TurnSession(b, turns[last], json, games);
      es := front + more;
      C.RunConcat(app.client, front, more);
      C.ReceiptsConcat(front, more);
    }
  }

  /** Whatever is typed and however the loop turns, no more login texts go out than challenges were polled. */
  lemma LoginsNeedChallenges(turns: seq<Turn>, json: string -> Request, games: string -> Option<string>)
    requires AllPossible(turns)
    ensures Inv(NEW_APP)
    ensures |RunTurns(NEW_APP, turns, json, games).client.outbox| <=
      C.Challenges(Polled(Hearings(NEW_APP, turns, json, games)))
  {
    NewAppInv();
    var es := SessionRun(NEW_APP, turns, json, games);
    C.ChallengesSpent(C.NEW_CLIENT, es);
    C.AcceptedArrived(C.NEW_CLIENT, es);
  }
}
