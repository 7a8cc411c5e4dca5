/** The PsApp object of src/app/psapp.cpp: a queue of 64 slots, a layer stack and a client session, with the
    loops of poll and push_to_layers proved against the event loop's functions. */
module App {
  import opened Types
  import opened BattleState
  import A = AppRuns
  import D = Draining
  import E = EventLoop
  import I = Inbound
  import L = LayerStack
  import C = PsClient
  import N = Network
  import Q = SpscQueue

  class PsApp {
    const queue: Q.SPSCQueue<E.Event>
    const stack: L.Layers
    const client: C.Session
    var layers: map<nat, E.Layer>
    var nextId: nat
    var sends: seq<string>
    var lost: seq<E.Event>
    var running: bool
    var dirty: bool
    var defined: bool

    ghost predicate Valid()
      reads this, queue, queue.slots, stack, client, client.username, client.password
    {
      && queue.Valid() && queue.capacity == E.ROOM + 1 && client.Valid()
      && queue.slots as object != client.username && queue.slots as object != client.password
    }

    ghost function View(): E.App
      requires Valid()
      reads this, queue, queue.slots, stack, client, client.username, client.password
    {
      E.App(queue.Contents(), stack.View(), layers, client.View(), nextId, sends, lost, running, dirty, defined)
    }

    /** init: the menu exists and its push is the first event. */
    constructor ()
      ensures Valid() && E.Inv(View())
      ensures fresh(queue) && fresh(queue.slots) && fresh(stack) && fresh(client) && fresh(client.username)
              && fresh(client.password)
      ensures View() == E.NEW_APP
    {
      var q := new Q.SPSCQueue<E.Event>(E.ROOM + 1);
      var s := new L.Layers();
      var c := new C.Session();
      queue, stack, client := q, s, c;
      layers, nextId, sends, lost := map[0 := E.Menu], 1, [], [];
      running, dirty, defined := true, false, true;
      new;
      var ok := queue.Push(E.LayerPush(0, false));
    }

    /** m_submit: the result of the push is not looked at. */
    method Submit(e: E.Event)
      requires Valid()
      modifies queue, queue.slots, this`lost
      ensures Valid() && View() == E.Submit(old(View()), e)
    {
      var ok := queue.Push(e);
      if !ok {
        lost := lost + [e];
      }
    }

    method LoginWord(l: E.Layer, ghost id: nat, word: string, token: string)
      returns (l': E.Layer, done: bool, texts: seq<string>)
      requires Valid() && l.LoginOverlay?
      modifies client, client.username, client.password
      ensures Valid()
      ensures E.LoginWord(l, id, word, old(client.View()), token) ==
        E.Reaction(l', client.View(), texts, if done then Some(E.LayerPop(id, true)) else None, true)
    {
      l', done, texts := l, false, [];
      if !l.enteredUsername {
        var ok := client.SetUsername(word);
        if !ok {
          return;
        }
        l' := l.(enteredUsername := true);
      } else {
        var ok := client.SetPassword(word);
        if !ok {
          return;
        }
        done := client.TryLogin(token);
        if done {
          texts := [client.outbox[|client.outbox| - 1]];
        }
        l' := if done then l.(enteredPassword := true) else E.LoginOverlay(false, false);
      }
    }

    /** The command handler of the login overlay. */
    method LoginCommand(id: nat, cmd: string, token: string)
      requires Valid() && id in layers && layers[id].LoginOverlay?
      modifies this, queue, queue.slots, client, client.username, client.password
      ensures Valid()
      ensures View() == E.React(old(View()), id, E.LoginCommand(old(layers)[id], id, cmd, old(client.View()), token))
    {
      hide E.LoginWord, E.Submit;
      var tokens := E.Tokenize(cmd);
      assert sends + [] == sends;
      if |tokens| != 1 {
        assert layers[id := layers[id]] == layers;
        return;
      }
      var l, done, texts := LoginWord(layers[id], id, tokens[0], token);
      layers := layers[id := l];
      sends := sends + texts;
      if done {
        Submit(E.LayerPop(id, true));
      }
    }

    /** The command handler of the battle layer. */
    method BattleCommand(id: nat, cmd: string)
      requires Valid() && id in layers && layers[id].BattleLayer?
      modifies this`layers, this`sends
      ensures Valid()
      ensures View() == E.React(old(View()), id, E.BattleCommand(old(layers)[id], cmd, old(client.View())))
    {
      var l := layers[id];
      var tokens := E.Tokenize(cmd);
      var out := [];
      if tokens != [] {
        if E.IsChoice(tokens[0]) {
          if l.state.forceSwitch == Some(true) {
            out := [l.room + ("|/choose switch " + cmd[..1])];
          } else {
            var tera := if |tokens| == 2 && tokens[1] == "tera" then " terastallize" else "";
            out := [l.room + ("|/choose move " + cmd[..1] + tera)];
          }
        } else if cmd == "f" {
          out := [l.room + "|/forfeit"];
        } else if cmd == "t" {
          if l.timerActive {
            out := [l.room + "|/timer off"];
            l := l.(timerActive := false);
          } else {
            out := [l.room + "|/timer on"];
            l := l.(timerActive := true);
          }
        } else if E.IsSlot(cmd) {
          var slot := cmd[1..];
          out := [l.room + "|/choose switch " + slot];
        }
      }
      assert E.BattleCommand(old(layers)[id], cmd, client.View()) == E.Reaction(l, client.View(), out, None, true);
      layers := layers[id := l];
      sends := sends + out;
    }

    /** on_event of whichever layer it is. */
    method OnCommand(id: nat, cmd: string, token: string) returns (handled: bool)
      requires Valid() && id in layers
      modifies this, queue, queue.slots, client, client.username, client.password
      ensures Valid()
      ensures var r := E.OnCommand(old(layers)[id], id, cmd, old(client.View()), token);
        View() == E.React(old(View()), id, r) && handled == r.handled
    {
      handled := true;
      match layers[id]
      case Menu =>
        assert layers[id := layers[id]] == layers;
        var out := E.MenuCommand(id, cmd);
        if out.Some? {
          Submit(out.value);
        }
        handled := cmd != "q";
      case LoginOverlay(_, _) =>
        LoginCommand(id, cmd, token);
      case BattleLayer(_, _, _) =>
        BattleCommand(id, cmd);
    }

    /** on_event at one layer; only commands have handlers among queued events. */
    method OnEvent(id: nat, e: E.Event, token: string) returns (handled: bool)
      requires Valid() && id in layers
      modifies this, queue, queue.slots, client, client.username, client.password
      ensures Valid()
      ensures var r := E.OnEvent(old(layers)[id], id, e, old(client.View()), token);
        View() == E.React(old(View()), id, r) && handled == r.handled
    {
      handled := false;
      if e.Command? {
        handled := OnCommand(id, e.text, token);
      } else {
        assert layers[id := layers[id]] == layers;
      }
    }

    /** One turn of push_to_layers. */
    method AtLayer(i: nat, e: E.Event, token: string) returns (handled: bool)
      requires Valid() && E.Known(View()) && 0 < i <= |stack.mLayers|
      modifies this, queue, queue.slots, client, client.username, client.password
      ensures Valid() && E.Known(View()) && View().stack == old(View()).stack
      ensures E.Dispatch(old(View()), e, i, token) == E.Dispatch(View(), e, if handled then 0 else i - 1, token)
    {
      handled := OnEvent(stack.mLayers[i - 1].id, e, token);
    }

    /** push_to_layers: top down, stop when handled. */
    method PushToLayers(e: E.Event, token: string)
      requires Valid() && E.Known(View())
      modifies this, queue, queue.slots, client, client.username, client.password
      ensures Valid() && View() == E.Dispatch(old(View()), e, |old(View()).stack.layers|, token)
    {
      ghost var goal := E.Dispatch(View(), e, |stack.mLayers|, token);
      var i := |stack.mLayers|;
      while i > 0
        invariant Valid() && E.Known(View()) && 0 <= i <= |stack.mLayers|
        invariant goal == E.Dispatch(View(), e, i, token)
      {
        var handled := AtLayer(i, e, token);
        i := if handled then 0 else i - 1;
      }
    }

    /** One stack operation, where the iterators it makes are inside the vector. */
    method ChangeStack(op: L.Op)
      requires Valid()
      modifies this`dirty, this`defined, stack
      ensures Valid() && View() == E.StackOp(old(View()), op)
    {
      if !op.PushOverlay? && stack.mOffset > |stack.mLayers| {
        defined := false;
        return;
      }
      dirty := true;
      match op
      case PushLayer(id) => stack.PushLayer(id);
      case PushOverlay(id) => stack.PushOverlay(id);
      case PopLayer(id) => stack.PopLayer(id);
      case PopOverlay(id) => stack.PopOverlay(id);
    }

    method PushNew(layer: E.Layer)
      requires Valid()
      modifies this`layers, this`nextId, this`dirty, this`defined, stack
      ensures Valid() && View() == E.PushNew(old(View()), layer)
    {
      var id := nextId;
      layers := layers[id := layer];
      nextId := nextId + 1;
      ChangeStack(L.PushOverlay(id));
    }

    /** The switch of poll. */
    method HandleEvent(e: E.Event) returns (exit: bool)
      requires Valid()
      modifies this, stack
      ensures Valid() && View() == E.Handle(old(View()), e) && exit == (e == E.Command("q"))
    {
      hide E.PushNew, E.StackOp;
      exit := false;
      match e
      case Command(cmd) =>
        if cmd == "q" {
          running := false;
          exit := true;
        }
      case LayerPush(id, isOverlay) => ChangeStack(if isOverlay then L.PushOverlay(id) else L.PushLayer(id));
      case LayerPop(id, isOverlay) => ChangeStack(if isOverlay then L.PopOverlay(id) else L.PopLayer(id));
      case Login(_) => PushNew(E.LoginOverlay(false, false));
      case BattleSearch =>
        PushNew(E.BattleLayer(FRESH, "", false));
        sends := sends + ["|/search gen9randombattle"];
      case BattleJoin => dirty := true;
    }

    /** One turn of the loop of poll after its pop. */
    method ProcessEvent(e: E.Event, token: string) returns (exit: bool)
      requires Valid() && E.Settled(View()) && E.MayHandle(View(), e)
      modifies this, queue, queue.slots, stack, client, client.username, client.password
      ensures Valid() && View() == E.Process(old(View()), e, token) && exit == (e == E.Command("q"))
    {
      E.HandleSettled(View(), e);
      exit := HandleEvent(e);
      if defined {
        PushToLayers(e, token);
      }
    }

    /** poll: drain the queue the handlers push into. It terminates: every turn takes away more weight than
        it adds. */
    method Poll(answers: nat -> string)
      requires Valid() && E.Inv(View())
      modifies this, queue, queue.slots, stack, client, client.username, client.password
      ensures Valid() && E.Inv(View()) && View() == D.Drain(old(View()), false, answers, 0).app
    {
      hide E.Process, E.Inv;
      D.DrainInv(View(), false, answers, 0);
      ghost var goal := D.Drain(View(), false, answers, 0).app;
      var exit, n := false, 0;
      while defined
        invariant Valid() && E.Inv(View())
        invariant goal == D.Drain(View(), exit, answers, n).app
        decreases D.Measure(queue.Contents())
      {
        ghost var before := View();
        var ok, e := queue.Pop();
        if !ok || exit {
          assert goal == if ok then before.(queue := before.queue[1..]) else before;
          break;
        }
        ghost var next := D.DrainNext(before, answers, n);
        assert before.queue[0] == e && View() == before.(queue := before.queue[1..]);
        exit := ProcessEvent(e, answers(n));
        assert View() == next;
        n := n + 1;
      }
    }

    /** What a handler leaves behind. */
    method TakeIn(id: nat, h: N.Heard)
      requires Valid()
      modifies this, queue, queue.slots
      ensures Valid() && View() == N.Take(old(View()), id, h)
    {
      hide E.Submit;
      layers := layers[id := h.layer];
      sends := sends + h.sends;
      defined := defined && h.ok;
      if h.submits.Some? {
        Submit(h.submits.value);
      }
    }

    /** on_event at one layer for a message. */
    method HearAt(id: nat, m: Message, json: string -> Request, games: string -> Option<string>)
      returns (handled: bool)
      requires Valid() && id in layers && N.Deliverable(m)
      modifies this, queue, queue.slots
      ensures Valid()
      ensures var h := N.OnMessage(old(layers)[id], id, m, json, games);
        View() == N.Take(old(View()), id, h) && handled == h.handled
    {
      var h := N.OnMessage(layers[id], id, m, json, games);
      TakeIn(id, h);
      handled := h.handled;
    }

    /** push_to_layers for a message. */
    method PushMessage(m: Message, json: string -> Request, games: string -> Option<string>)
      requires Valid() && E.Known(View()) && N.Deliverable(m)
      modifies this, queue, queue.slots
      ensures Valid() && View() == N.Hear(old(View()), m, |old(View()).stack.layers|, json, games)
    {
      ghost var goal := N.Hear(View(), m, |View().stack.layers|, json, games);
      var i := |stack.mLayers|;
      while i > 0
        invariant Valid() && View().stack == old(View()).stack
        invariant 0 <= i <= |View().stack.layers| && E.Known(View())
        invariant goal == N.Hear(View(), m, i, json, games)
      {
        var handled := HearAt(stack.mLayers[i - 1].id, m, json, games);
        if handled {
          return;
        }
        i := i - 1;
      }
    }

    /** One turn of process_network: a message off the inbound queue and down the layers. */
    method PollOne(inbound: Q.SPSCQueue<Message>, json: string -> Request, games: string -> Option<string>)
      returns (ok: bool, m: Message)
      requires Valid() && E.Known(View()) && inbound.Valid() && Apart(inbound)
      requires inbound.Contents() != [] ==> N.Deliverable(inbound.Contents()[0])
      modifies this, queue, queue.slots, client, inbound, inbound.slots
      ensures Valid() && inbound.Valid() && (ok <==> old(inbound.Contents()) != [])
      ensures ok ==> old(inbound.Contents()) == [m] + inbound.Contents() && N.Deliverable(m)
                     && View() == N.Receive(old(View()), m, json, games)
      ensures !ok ==> inbound.Contents() == [] && View() == old(View())
    {
      ok, m := client.Poll(inbound);
      if ok {
        PushMessage(m, json, games);
      }
    }

    ghost predicate Apart(inbound: Q.SPSCQueue<Message>) {
      && inbound as object != queue && inbound.slots as object != queue.slots
      && inbound.slots as object != client.username && inbound.slots as object != client.password
    }

    /** process_network: poll until the inbound queue is empty or a handler does not return. Messages may come in
        meanwhile: `arriving[k]` are those the other thread pushes before the kth poll. `cuts` says how many of
        each found room, and `polled` what was handled. */
    method ProcessNetwork(inbound: Q.SPSCQueue<Message>, arriving: seq<seq<Message>>, json: string -> Request,
                          games: string -> Option<string>)
      returns (ghost polled: seq<Message>, ghost cuts: seq<nat>)
      requires Valid() && E.Inv(View()) && inbound.Valid() && Apart(inbound)
      requires AllDeliverable(inbound.Contents()) && forall ms | ms in arriving :: AllDeliverable(ms)
      modifies this, queue, queue.slots, client, inbound, inbound.slots
      ensures Valid() && E.Inv(View()) && inbound.Valid() && AllDeliverable(polled)
      ensures View() == A.RunTurns(old(View()), A.Updates(polled), json, games)
      ensures Fitted(arriving, cuts, |old(inbound.Contents())|, inbound.capacity)
      ensures polled + inbound.Contents() == old(inbound.Contents()) + Cut(arriving, cuts)
      ensures defined ==> inbound.Contents() == []
    {
      hide N.Receive, A.Updates, A.RunTurns, Fitted, Cut, FittedAt;
      FittedNone(arriving, |inbound.Contents()|, inbound.capacity);
      ghost var was, first := inbound.Contents(), View();
      polled, cuts := [], [];
      A.NoTurns(first, json, games);
      var k := 0;
      while defined
        invariant Valid() && inbound.Valid() && E.Inv(View()) && AllDeliverable(polled)
        invariant AllDeliverable(inbound.Contents())
        invariant k == |polled| && |cuts| == (if k <= |arriving| then k else |arriving|)
        invariant Fitted(arriving, cuts, |was|, inbound.capacity)
        invariant polled + inbound.Contents() == was + Cut(arriving, cuts)
        invariant View() == A.RunTurns(first, A.Updates(polled), json, games)
        decreases if k < |arriving| then |arriving| - k else 0, |inbound.Contents()|
      {
        if k < |arriving| {
          ghost var cut := LetIn(inbound, arriving, k, was, polled, cuts);
          cuts := cuts + [cut];
        }
        var ok, m := PollOne(inbound, json, games);
        if !ok {
          break;
        }
        A.UpdatesNext(first, polled, m, json, games);
        OnePolled(polled, m, inbound.Contents(), was + Cut(arriving, cuts));
        polled, k := polled + [m], k + 1;
      }
    }

    /** The other thread's pushes before the kth poll. */
    method LetIn(inbound: Q.SPSCQueue<Message>, arriving: seq<seq<Message>>, k: nat, ghost was: seq<Message>,
                 ghost polled: seq<Message>, ghost cuts: seq<nat>)
      returns (ghost cut: nat)
      requires inbound.Valid() && Apart(inbound) && k < |arriving| && |cuts| == k == |polled|
      requires AllDeliverable(inbound.Contents()) && AllDeliverable(arriving[k])
      requires Fitted(arriving, cuts, |was|, inbound.capacity)
      requires polled + inbound.Contents() == was + Cut(arriving, cuts)
      modifies inbound, inbound.slots
      ensures inbound.Valid() && AllDeliverable(inbound.Contents())
      ensures Fitted(arriving, cuts + [cut], |was|, inbound.capacity)
      ensures polled + inbound.Contents() == was + Cut(arriving, cuts + [cut])
    {
      hide Fitted, Cut, FittedAt;
      var ms := arriving[k];
      ghost var now := inbound.Contents();
      ghost var room := inbound.capacity - 1 - |now|;
      I.Arrive(inbound, ms);
      cut := if |ms| <= room then |ms| else room;
      assert |polled + now| == |was + Cut(arriving, cuts)|;
      FittedNext(arriving, cuts, cut, |was|, inbound.capacity, |now|);
      CutNext(arriving, cuts, cut);
      LongerBoth(polled, now, was, Cut(arriving, cuts), ms[..cut]);
    }

    /** The input callback: a typed line becomes a queued command. */
    method Type(cmd: string)
      requires Valid() && E.Inv(View())
      modifies queue, queue.slots, this`lost
      ensures Valid() && E.Inv(View()) && View() == E.Submit(old(View()), E.Command(cmd))
    {
      A.SubmitInv(View(), E.Command(cmd));
      Submit(E.Command(cmd));
    }

    /** One round of run without the drawing: on_update, then the drain, then at most one line of input. */
    method Round(inbound: Q.SPSCQueue<Message>, arriving: seq<seq<Message>>, typed: Option<string>,
                 answers: nat -> string, json: string -> Request, games: string -> Option<string>)
      returns (ghost polled: seq<Message>, ghost cuts: seq<nat>)
      requires Valid() && E.Inv(View()) && inbound.Valid() && Apart(inbound)
      requires AllDeliverable(inbound.Contents()) && forall ms | ms in arriving :: AllDeliverable(ms)
      modifies this, queue, queue.slots, stack, client, client.username, client.password, inbound, inbound.slots
      ensures Valid() && E.Inv(View()) && inbound.Valid() && AllDeliverable(polled)
      ensures View() == A.RunTurns(old(View()), A.RoundTurns(polled, answers, typed), json, games)
      ensures Fitted(arriving, cuts, |old(inbound.Contents())|, inbound.capacity)
      ensures polled + inbound.Contents() == old(inbound.Contents()) + Cut(arriving, cuts)
    {
      hide A.RunTurns, A.Updates, A.RoundTurns, D.Drain, E.Inv, Cut, Fitted, FittedAt;
      ghost var first := View();
      polled, cuts := ProcessNetwork(inbound, arriving, json, games);
      A.RoundSplit(first, polled, answers, typed, json, games);
      Poll(answers);
      match typed
      case None =>
      case Some(cmd) => Type(cmd);
    }
  }

  ghost predicate AllDeliverable(ms: seq<Message>) { forall m | m in ms :: N.Deliverable(m) }

  /** The messages of some batches that found room. */
  ghost function Cut(arriving: seq<seq<Message>>, cuts: seq<nat>): seq<Message> {
    if cuts == [] || |cuts| > |arriving| then []
    else
      var k := |cuts| - 1;
      Cut(arriving, cuts[..k]) + if cuts[k] <= |arriving[k]| then arriving[k][..cuts[k]] else []
  }

  /** The kth batch, which comes after k polls of a queue that held n, goes in whole or until the queue is full. */
  ghost predicate FittedAt(arriving: seq<seq<Message>>, cuts: seq<nat>, k: nat, n: nat, capacity: nat)
    requires k < |cuts| <= |arriving|
  {
    var held := n + |Cut(arriving, cuts[..k + 1])| - k;
    cuts[k] <= |arriving[k]| && held <= capacity - 1 && (cuts[k] < |arriving[k]| ==> held == capacity - 1)
  }

  ghost predicate Fitted(arriving: seq<seq<Message>>, cuts: seq<nat>, n: nat, capacity: nat) {
    |cuts| <= |arriving| && forall k: nat | k < |cuts| :: FittedAt(arriving, cuts, k, n, capacity)
  }

  lemma FittedNone(arriving: seq<seq<Message>>, n: nat, capacity: nat)
    ensures Fitted(arriving, [], n, capacity) && Cut(arriving, []) == []
  {
  }

  lemma OnePolled(polled: seq<Message>, m: Message, rest: seq<Message>, all: seq<Message>)
    requires polled + ([m] + rest) == all
    ensures polled + [m] + rest == all
  {
  }

  lemma CutNext(arriving: seq<seq<Message>>, cuts: seq<nat>, cut: nat)
    requires |cuts| < |arriving| && cut <= |arriving[|cuts|]|
    ensures Cut(arriving, cuts + [cut]) == Cut(arriving, cuts) + arriving[|cuts|][..cut]
  {
    assert (cuts + [cut])[..|cuts|] == cuts;
  }

  lemma FittedNext(arriving: seq<seq<Message>>, cuts: seq<nat>, cut: nat, n: nat, capacity: nat, now: nat)
    requires |cuts| < |arriving| && Fitted(arriving, cuts, n, capacity)
    requires |cuts| + now == n + |Cut(arriving, cuts)| && now < capacity
    requires var ms := arriving[|cuts|]; cut == if |ms| <= capacity - 1 - now then |ms| else capacity - 1 - now
    ensures Fitted(arriving, cuts + [cut], n, capacity)
  {
    var cuts', k := cuts + [cut], |cuts|;
    CutNext(arriving, cuts, cut);
    hide Cut;
    assert cuts'[..k + 1] == cuts';
    assert FittedAt(arriving, cuts', k, n, capacity);
    forall j: nat | j < k ensures FittedAt(arriving, cuts', j, n, capacity) {
      assert FittedAt(arriving, cuts, j, n, capacity) && cuts'[..j + 1] == cuts[..j + 1] && cuts'[j] == cuts[j];
    }
  }

  lemma LongerBoth<T>(a: seq<T>, b: seq<T>, c: seq<T>, d: seq<T>, x: seq<T>)
    requires a + b == c + d
    ensures a + (b + x) == c + (d + x)
  {
    assert a + (b + x) == a + b + x && c + (d + x) == c + d + x;
  }
}
