/** The whole client: the network thread with its read loop, its write queue and the ring, and the main thread
    that polls, drains its event queue, reads typed lines and sends texts, in every interleaving. */
module EndToEnd {
  import opened AppRuns
  import opened BattleState
  import opened EventLoop
  import opened Types
  import C = PsClient
  import I = Inbound
  import L = Logins
  import N = Network
  import O = Outbound
  import P = Parser
  import R = SpscRing
  import RT = RoundTrip
  import W = WriteStrand

  /** Where the main loop is: in process_network, about to drain, past the drain with a line to come, or with
      the round over. */
  datatype Stage = Polling | Draining | Reading | Drawn

  /** `unsent` are the texts of send calls the main thread has come to and not yet posted. */
  datatype Client = Client(net: I.State, out: W.Net, app: App, stage: Stage, unsent: seq<string>)

  datatype Move =
    | Net(e: I.Event)                  // the network thread: the read loop, or a step inside push
    | Write(w: W.Event)                // the network thread: a posted handler, a completed write, or the stop
    | Post                             // the main thread inside send
    | Pop(act: R.Action<Message>)      // the main thread inside poll's pop
    | DrainQueue(answers: nat -> string)
    | Typed(cmd: string)

  predicate ByConsumer<V>(act: R.Action<V>) {
    act.CallPop? || act.LoadHeadOwn? || act.LoadTailAcquire? || act.TestEmpty? || act.TakeSlot? || act.StoreHead?
  }

  /** The main thread moves only while the application goes on and no call of send is open. */
  predicate MayMove(s: Client) { s.app.defined && s.unsent == [] }

  /** A round begins only while the application runs, and takes at most one line. The handlers of the strand do
      not overlap, and none begins after the stop. A run does not go past a message with fewer arguments than
      its readers index. */
  predicate Enabled(s: Client, v: Move) {
    match v
    case Net(e) =>
      && I.Enabled(s.net, e) && (e.Ring? ==> !ByConsumer(e.act)) && (e.Frame? ==> !s.out.stopped)
    case Write(w) =>
      && !w.Send? && W.Enabled(s.out, w) && (w.Stop? || !s.net.reader.Pushing?)
    case Post => s.unsent != [] && s.unsent[0] != ""
    case Pop(act) =>
      && MayMove(s) && ByConsumer(act) && I.Enabled(s.net, I.Ring(act))
      && (act.CallPop? ==> s.stage.Polling? || ((s.stage.Reading? || s.stage.Drawn?) && s.app.running))
      && (act.StoreHead? ==> N.Deliverable(s.net.ring.cons.out))
    case DrainQueue(_) => MayMove(s) && s.stage.Draining?
    case Typed(_) => MayMove(s) && s.stage.Reading?
  }

  /** The turn of the main loop a move completes: a successful poll hands its message on at once. */
  function TurnOf(s: Client, v: Move): (turns: seq<Turn>)
    requires Enabled(s, v)
    ensures AllPossible(turns) && |turns| <= 1
  {
    match v
    case Pop(act) => if act.StoreHead? then [Update(s.net.ring.cons.out)] else []
    case DrainQueue(answers) => [Poll(answers)]
    case Typed(cmd) => [Input(cmd)]
    case _ => []
  }

  function NetOf(v: Move): seq<I.Event> {
    match v
    case Net(e) => [e]
    case Pop(act) => [I.Ring(act)]
    case _ => []
  }

  function WriteOf(s: Client, v: Move): seq<W.Event>
    requires Enabled(s, v)
  {
    match v
    case Write(w) => [w]
    case Post => [W.Send(s.unsent[0])]
    case _ => []
  }

  function AppAfter(s: Client, v: Move, json: string -> Request, games: string -> Option<string>): (a: App)
    requires Enabled(s, v) && Inv(s.app)
    ensures Inv(a)
  {
    var turns := TurnOf(s, v);
    if turns == [] then s.app
    else
      assert turns[0] in turns;
      TurnInv(s.app, turns[0], json, games);
      TurnStep(s.app, turns[0], json, games)
  }

  function NetAfter(s: Client, v: Move): I.State
    requires Enabled(s, v)
  {
    match v
    case Net(e) => I.Step(s.net, e)
    case Pop(act) => I.Step(s.net, I.Ring(act))
    case _ => s.net
  }

  function OutAfter(s: Client, v: Move): W.Net
    requires Enabled(s, v)
  {
    match v
    case Write(w) => W.Step(s.out, w)
    case Post => W.Step(s.out, W.Send(s.unsent[0]))
    case _ => s.out
  }

  function StageAfter(s: Client, v: Move): Stage
    requires Enabled(s, v)
  {
    match v
    case Pop(act) => if act.TestEmpty? && NetAfter(s, v).ring.cons.CIdle? then Draining else Polling
    case DrainQueue(_) => Reading
    case Typed(_) => Drawn
    case _ => s.stage
  }

  /** The texts one application has sent more than another. */
  function NewTexts(app: App, a: App): seq<string> {
    if |app.sends| <= |a.sends| then a.sends[|app.sends|..] else []
  }

  function Step(s: Client, v: Move, json: string -> Request, games: string -> Option<string>): (t: Client)
    requires Enabled(s, v) && Inv(s.app)
    ensures Inv(t.app)
  {
    var a := AppAfter(s, v, json, games);
    Client(NetAfter(s, v), OutAfter(s, v), a, StageAfter(s, v),
           if v.Post? then s.unsent[1..] else s.unsent + NewTexts(s.app, a))
  }

  function Exec(blank: seq<Message>, vs: seq<Move>, json: string -> Request, games: string -> Option<string>)
    : (r: Option<Client>)
    ensures r.Some? ==> Inv(r.value.app)
  {
    if vs == [] then
      NewAppInv();
      Some(Client(I.State(R.Init(blank), I.Armed, [], [], []), W.IDLE, NEW_APP, Polling, []))
    else
      var last := |vs| - 1;
      match Exec(blank, vs[..last], json, games)
      case None => None
      case Some(s) => if Enabled(s, vs[last]) then Some(Step(s, vs[last], json, games)) else None
  }

  /** The turns of the main loop in a run of the client, and the events of its inbound and outbound sides. */
  function Turns(blank: seq<Message>, vs: seq<Move>, json: string -> Request, games: string -> Option<string>)
    : (turns: seq<Turn>)
    requires Exec(blank, vs, json, games).Some?
    ensures AllPossible(turns)
  {
    if vs == [] then []
    else
      var last := |vs| - 1;
      Turns(blank, vs[..last], json, games) + TurnOf(Exec(blank, vs[..last], json, games).value, vs[last])
  }

  function NetEvents(vs: seq<Move>): seq<I.Event> {
    if vs == [] then [] else NetEvents(vs[..|vs| - 1]) + NetOf(vs[|vs| - 1])
  }

  function WriteEvents(blank: seq<Message>, vs: seq<Move>, json: string -> Request, games: string -> Option<string>)
    : seq<W.Event>
    requires Exec(blank, vs, json, games).Some?
  {
    if vs == [] then []
    else
      var last := |vs| - 1;
      WriteEvents(blank, vs[..last], json, games) + WriteOf(Exec(blank, vs[..last], json, games).value, vs[last])
  }

  // ---- the inbound side ----

  lemma InboundNext(blank: seq<Message>, es: seq<I.Event>, e: I.Event)
    requires I.Exec(blank, es).Some? && I.Enabled(I.Exec(blank, es).value, e)
    ensures I.Exec(blank, es + [e]) == Some(I.Step(I.Exec(blank, es).value, e))
  {
    assert (es + [e])[..|es|] == es;
  }

  lemma MoveNet(blank: seq<Message>, es: seq<I.Event>, s: Client, v: Move)
    requires Enabled(s, v) && I.Exec(blank, es) == Some(s.net)
    ensures I.Exec(blank, es + NetOf(v)) == Some(NetAfter(s, v))
  {
    if NetOf(v) == [] {
      assert es + NetOf(v) == es;
    } else {
      InboundNext(blank, es, NetOf(v)[0]);
    }
  }

  /** The inbound side of a run is a run of the inbound machine. */
  lemma {:induction false} InboundSide(blank: seq<Message>, vs: seq<Move>, json: string -> Request,
                                       games: string -> Option<string>)
    requires Exec(blank, vs, json, games).Some?
    ensures I.Exec(blank, NetEvents(vs)) == Some(Exec(blank, vs, json, games).value.net)
  {
    if vs == [] {
      assert NetEvents(vs) == [];
    } else {
      var front, v := vs[..|vs| - 1], vs[|vs| - 1];
      InboundSide(blank, front, json, games);
      hide I.Exec, Enabled, NetOf, NetAfter;
      MoveNet(blank, NetEvents(front), Exec(blank, front, json, games).value, v);
    }
  }

  // ---- the main thread's side ----

  /** What the main loop has done in a run, and what it polled, which is what the ring has delivered. */
  ghost predicate MainSide(app: App, delivered: seq<Message>, turns: seq<Turn>, json: string -> Request,
                           games: string -> Option<string>)
    requires AllPossible(turns)
  {
    && Inv(NEW_APP)
    && app == RunTurns(NEW_APP, turns, json, games)
    && Polled(Hearings(NEW_APP, turns, json, games)) == delivered
  }

  lemma HearingsNext(app: App, turns: seq<Turn>, t: Turn, json: string -> Request, games: string -> Option<string>)
    requires Inv(app) && AllPossible(turns) && Possible(t)
    ensures AllPossible(turns + [t])
    ensures Hearings(app, turns + [t], json, games) ==
      Hearings(app, turns, json, games) + HearingOf(RunTurns(app, turns, json, games), t)
  {
    assert (turns + [t])[..|turns|] == turns;
  }

  lemma TurnMain(app: App, delivered: seq<Message>, turns: seq<Turn>, t: Turn, json: string -> Request,
                 games: string -> Option<string>)
    requires Inv(app) && app.defined && AllPossible(turns) && Possible(t)
    requires MainSide(app, delivered, turns, json, games)
    ensures AllPossible(turns + [t])
    ensures MainSide(TurnStep(app, t, json, games), delivered + (if t.Update? then [t.m] else []), turns + [t],
                     json, games)
  {
    hide Inv, TurnStep;
    RunNextTurn(NEW_APP, turns, t, json, games);
    HearingsNext(NEW_APP, turns, t, json, games);
  }

  lemma DeliveredBy(s: Client, v: Move)
    requires Enabled(s, v)
    ensures var turns := TurnOf(s, v);
      && NetAfter(s, v).delivered ==
           s.net.delivered + (if turns != [] && turns[0].Update? then [turns[0].m] else [])
      && (turns != [] ==> s.app.defined && turns == [turns[0]] && Possible(turns[0]))
  {
    hide R.Step, R.Enabled;
    assert s.net.delivered + [] == s.net.delivered;
  }

  lemma MoveMain(s: Client, v: Move, turns: seq<Turn>, json: string -> Request, games: string -> Option<string>)
    requires Enabled(s, v) && Inv(s.app) && AllPossible(turns)
    requires MainSide(s.app, s.net.delivered, turns, json, games)
    ensures AllPossible(turns + TurnOf(s, v))
    ensures MainSide(AppAfter(s, v, json, games), NetAfter(s, v).delivered, turns + TurnOf(s, v), json, games)
  {
    DeliveredBy(s, v);
    hide Enabled, NetAfter, MainSide, Inv, TurnStep;
    var more := TurnOf(s, v);
    if more == [] {
      assert turns + more == turns && s.net.delivered + [] == s.net.delivered;
    } else {
      TurnMain(s.app, s.net.delivered, turns, more[0], json, games);
    }
  }

  lemma {:induction false} MainRuns(blank: seq<Message>, vs: seq<Move>, json: string -> Request,
                                    games: string -> Option<string>)
    requires Exec(blank, vs, json, games).Some?
    ensures var s := Exec(blank, vs, json, games).value;
      MainSide(s.app, s.net.delivered, Turns(blank, vs, json, games), json, games)
  {
    if vs == [] {
      NewAppInv();
    } else {
      var front, v := vs[..|vs| - 1], vs[|vs| - 1];
      MainRuns(blank, front, json, games);
      hide MainSide, Enabled, TurnOf, NetAfter, AppAfter, Inv;
      MoveMain(Exec(blank, front, json, games).value, v, Turns(blank, front, json, games), json, games);
    }
  }

  // ---- the outbound side ----

  lemma {:induction false} SendsConcat(a: seq<W.Event>, b: seq<W.Event>)
    ensures W.Sends(a + b) == W.Sends(a) + W.Sends(b)
  {
    if a == [] {
      assert a + b == b;
    } else {
      assert (a + b)[1..] == a[1..] + b;
      SendsConcat(a[1..], b);
      assert W.Added(a[0]) + (W.Sends(a[1..]) + W.Sends(b)) == W.Added(a[0]) + W.Sends(a[1..]) + W.Sends(b);
    }
  }

  /** The write queue has run on the texts posted, and those and the ones not yet posted are all that the
      application has sent; none is empty. */
  ghost predicate OutSide(out: W.Net, unsent: seq<string>, sends: seq<string>, es: seq<W.Event>) {
    && W.Exec(W.IDLE, es) == Some(out)
    && W.Sends(es) + unsent == sends
    && forall t | t in sends :: t != ""
  }

  lemma WriteNext(out: W.Net, es: seq<W.Event>, e: W.Event)
    requires W.Exec(W.IDLE, es) == Some(out) && W.Enabled(out, e)
    ensures W.Exec(W.IDLE, es + [e]) == Some(W.Step(out, e))
    ensures W.Sends(es + [e]) == W.Sends(es) + W.Added(e)
  {
    hide W.Step, W.Enabled;
    W.ExecConcat(W.IDLE, es, [e]);
    SendsConcat(es, [e]);
    assert [e][1..] == [];
    assert W.Sends([e]) == W.Added(e) + [] == W.Added(e);
  }

  lemma OutNext(out: W.Net, unsent: seq<string>, sends: seq<string>, es: seq<W.Event>, e: W.Event)
    requires OutSide(out, unsent, sends, es) && W.Enabled(out, e)
    requires e.Send? ==> unsent != [] && unsent[0] == e.text
    ensures OutSide(W.Step(out, e), if e.Send? then unsent[1..] else unsent, sends, es + [e])
  {
    WriteNext(out, es, e);
    hide W.Exec, W.Sends, W.Step, W.Enabled;
    var said := W.Sends(es);
    if e.Send? {
      assert unsent == [e.text] + unsent[1..];
      assert said + [e.text] + unsent[1..] == said + ([e.text] + unsent[1..]);
    } else {
      assert said + [] == said;
    }
  }

  lemma OutSaid(out: W.Net, unsent: seq<string>, app: App, a: App, es: seq<W.Event>)
    requires OutSide(out, unsent, app.sends, es) && O.Said(app, a)
    ensures OutSide(out, unsent + NewTexts(app, a), a.sends, es)
  {
    assert a.sends == app.sends + NewTexts(app, a);
    forall t | t in a.sends ensures t != "" {
      var k :| 0 <= k < |a.sends| && a.sends[k] == t;
      if k < |app.sends| { assert app.sends[k] in app.sends; }
    }
  }

  lemma MoveOut(s: Client, v: Move, es: seq<W.Event>, json: string -> Request, games: string -> Option<string>)
    requires Enabled(s, v) && Inv(s.app) && OutSide(s.out, s.unsent, s.app.sends, es)
    ensures var t := Step(s, v, json, games); OutSide(t.out, t.unsent, t.app.sends, es + WriteOf(s, v))
  {
    if v.Write? || v.Post? {
      hide OutSide, I.Enabled, Inv;
      assert s.unsent + [] == s.unsent && s.app.sends[|s.app.sends|..] == [];
      OutNext(s.out, s.unsent, s.app.sends, es, WriteOf(s, v)[0]);
    } else {
      AppSays(s, v, json, games);
      hide OutSide, I.Enabled, AppAfter, NetAfter, Inv;
      OutSaid(s.out, s.unsent, s.app, AppAfter(s, v, json, games), es);
      assert es + [] == es;
    }
  }

  lemma AppSays(s: Client, v: Move, json: string -> Request, games: string -> Option<string>)
    requires Enabled(s, v) && Inv(s.app)
    ensures O.Said(s.app, AppAfter(s, v, json, games))
  {
    var turns := TurnOf(s, v);
    if turns != [] {
      assert turns[0] in turns;
      O.TurnSays(s.app, turns[0], json, games);
    }
  }

  /** The outbound side of a run is a run of the write queue on the texts the application sends. */
  lemma {:induction false} OutboundSide(blank: seq<Message>, vs: seq<Move>, json: string -> Request,
                                        games: string -> Option<string>)
    requires Exec(blank, vs, json, games).Some?
    ensures var s := Exec(blank, vs, json, games).value;
      OutSide(s.out, s.unsent, s.app.sends, WriteEvents(blank, vs, json, games))
  {
    if vs != [] {
      var front, v := vs[..|vs| - 1], vs[|vs| - 1];
      OutboundSide(blank, front, json, games);
      hide OutSide, Enabled, WriteOf, Step, Inv;
      MoveOut(Exec(blank, front, json, games).value, v, WriteEvents(blank, front, json, games), json, games);
    }
  }

  /** Whatever the two threads interleave: what has been written, what is queued, what is posted and what the
      main thread is about to post, end to end, are the texts the application has sent, in order, each ending in
      a newline; at most one write is outstanding, of the queue's front. */
  lemma TextsGoOut(blank: seq<Message>, vs: seq<Move>, json: string -> Request, games: string -> Option<string>)
    requires Exec(blank, vs, json, games).Some?
    ensures var s := Exec(blank, vs, json, games).value;
      && s.out.written + s.out.queue + s.out.posted + W.Formatted(s.unsent) == W.Formatted(s.app.sends)
      && (s.out.outstanding == [] || (s.out.queue != [] && s.out.outstanding == [s.out.queue[0]]))
  {
    OutboundSide(blank, vs, json, games);
    var s := Exec(blank, vs, json, games).value;
    hide *;
    OutTotals(s.out, s.unsent, s.app.sends, WriteEvents(blank, vs, json, games));
  }

  lemma OutTotals(out: W.Net, unsent: seq<string>, sends: seq<string>, es: seq<W.Event>)
    requires OutSide(out, unsent, sends, es)
    ensures out.written + out.queue + out.posted + W.Formatted(unsent) == W.Formatted(sends)
    ensures out.outstanding == [] || (out.queue != [] && out.outstanding == [out.queue[0]])
  {
    hide W.Exec, W.Sends, W.Formatted;
    W.RunInv(es);
    W.FormattedConcat(W.Sends(es), unsent);
  }

  // ---- from the server to the battles ----

  /** Whatever the two threads interleave, however stale the indices they load, and whatever is drained and
      typed in between: what has been polled is a prefix of the messages received whose push succeeded; the
      application is where the turns of its main loop lead; each battle is the fold, from a new battle, of
      exactly the messages polled while it was the listener; and no more login texts have gone out than
      challenges were polled. */
  lemma BattlesFollowServer(blank: seq<Message>, vs: seq<Move>, json: string -> Request,
                            games: string -> Option<string>)
    requires |blank| == I.CAPACITY && Exec(blank, vs, json, games).Some?
    ensures Inv(NEW_APP)
    ensures var s, turns := Exec(blank, vs, json, games).value, Turns(blank, vs, json, games);
      var hs, all := Hearings(NEW_APP, turns, json, games), I.Arrived(s.net.frames);
      && |s.net.fates| <= |all|
      && Polled(hs) == s.net.delivered <= I.Kept(all[..|s.net.fates|], s.net.fates)
      && ((forall f | f in s.net.fates :: f) ==> Polled(hs) <= all)
      && s.app == RunTurns(NEW_APP, turns, json, games)
      && (forall id | id in s.app.layers && s.app.layers[id].BattleLayer? ::
            s.app.layers[id].state == Run(FRESH, HeardBy(hs, id), json))
      && |s.app.client.outbox| <= C.Challenges(Polled(hs))
  {
    MainRuns(blank, vs, json, games);
    InboundSide(blank, vs, json, games);
    I.Delivery(blank, NetEvents(vs));
    BattlesAre(Turns(blank, vs, json, games), json, games);
    L.LoginsNeedChallenges(Turns(blank, vs, json, games), json, games);
  }

  lemma BattlesAre(turns: seq<Turn>, json: string -> Request, games: string -> Option<string>)
    requires AllPossible(turns)
    ensures Inv(NEW_APP)
    ensures var a, hs := RunTurns(NEW_APP, turns, json, games), Hearings(NEW_APP, turns, json, games);
      forall id | id in a.layers && a.layers[id].BattleLayer? :: a.layers[id].state == Run(FRESH, HeardBy(hs, id), json)
  {
    hide RunTurns, Hearings, Inv, Run;
    NewAppInv();
    var a, hs := RunTurns(NEW_APP, turns, json, games), Hearings(NEW_APP, turns, json, games);
    forall id | id in a.layers && a.layers[id].BattleLayer?
      ensures a.layers[id].state == Run(FRESH, HeardBy(hs, id), json)
    {
      BattlesHear(NEW_APP, turns, id, json, games);
    }
  }

  // ---- printed frames ----

  function Flat(batches: seq<seq<Message>>): seq<Message> {
    if batches == [] then [] else Flat(batches[..|batches| - 1]) + batches[|batches| - 1]
  }

  /** Each frame is the text of a batch of messages that the format carries unharmed. */
  ghost predicate Carries(frames: seq<string>, batches: seq<seq<Message>>) {
    && |frames| == |batches|
    && forall k | 0 <= k < |frames| ::
         && RT.AllPrintable(batches[k])
         && (forall i | 0 <= i < |batches[k]| :: RT.CrFree(batches[k][i]))
         && frames[k] == RT.Print(batches[k])
  }

  lemma {:induction false} ArrivedIsSent(frames: seq<string>, batches: seq<seq<Message>>)
    requires Carries(frames, batches)
    ensures I.Arrived(frames) == Flat(batches)
  {
    if frames != [] {
      var last := |frames| - 1;
      assert frames[last] == RT.Print(batches[last]);
      ArrivedIsSent(frames[..last], batches[..last]);
      RT.RoundTripExact(batches[last]);
      assert P.Messages(frames[last]) == batches[last];
    }
  }

  /** If the frames print batches of messages and no push failed, what the battles and the session were given,
      one after the other, is a prefix of what the server printed. */
  lemma PolledIsPrinted(blank: seq<Message>, vs: seq<Move>, batches: seq<seq<Message>>, json: string -> Request,
                        games: string -> Option<string>)
    requires |blank| == I.CAPACITY && Exec(blank, vs, json, games).Some?
    requires var s := Exec(blank, vs, json, games).value;
      Carries(s.net.frames, batches) && forall f | f in s.net.fates :: f
    ensures Inv(NEW_APP)
    ensures Polled(Hearings(NEW_APP, Turns(blank, vs, json, games), json, games)) <= Flat(batches)
  {
    BattlesFollowServer(blank, vs, json, games);
    ArrivedIsSent(Exec(blank, vs, json, games).value.net.frames, batches);
  }
}
