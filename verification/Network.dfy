/** push_to_layers of src/app/psapp.cpp for a message polled from the client, with the message handlers of
    src/app/psapp.h: one layer hears it. */
module Network {
  import opened Types
  import opened BattleState
  import opened EventLoop
  import C = PsClient

  /** The arguments the session and a battle read whatever their state are there. */
  predicate Deliverable(m: Message) { Complete(m) && C.Readable(m) }

  /** `ok` is false when an exception leaves the handler, or it reads past the arguments. */
  datatype Heard = Heard(layer: Layer, sends: seq<string>, submits: Option<Event>, handled: bool, ok: bool)

  /** `json` decodes a request; `games` the first game listed in an updatesearch text, None for none. */
  function OnMessage(l: Layer, id: nat, m: Message, json: string -> Request, games: string -> Option<string>): Heard
    requires Deliverable(m)
  {
    match l
    case Menu => Heard(l, [], None, true, m.kind == "updateuser" || m.kind == "win" ==> m.args != [])
    case LoginOverlay(_, _) => Heard(l, [], None, false, true)
    case BattleLayer(state, _, _) =>
      var r := Apply(state, m, json);
      var l' := l.(state := r.state);
      if !r.ok then Heard(l', [], None, true, false)
      else if m.kind == "updatesearch" && m.args != [] then
        match games(m.args[0])
        case None => Heard(l', [], None, true, true)
        case Some(key) => Heard(l'.(room := key), ["|/join " + key], None, true, true)
      else if m.kind == "win" || m.kind == "tie" then Heard(l', [], Some(LayerPop(id, false)), true, true)
      else if m.kind == "request" then Heard(l', [], Some(BattleJoin), true, true)
      else Heard(l', [], None, true, true)
  }

  function Take(app: App, id: nat, h: Heard): App {
    var a := app.(layers := app.layers[id := h.layer], sends := app.sends + h.sends, defined := app.defined && h.ok);
    match h.submits case None => a case Some(e) => Submit(a, e)
  }

  /** push_to_layers for a message. */
  function Hear(app: App, m: Message, i: nat, json: string -> Request, games: string -> Option<string>): App
    requires Known(app) && i <= |app.stack.layers| && Deliverable(m)
    decreases i
  {
    if i == 0 then app
    else
      var id := app.stack.layers[i - 1].id;
      var h := OnMessage(app.layers[id], id, m, json, games);
      if h.handled then Take(app, id, h) else Hear(Take(app, id, h), m, i - 1, json, games)
  }

  /** One turn of process_network: the session sees the message, then the layers. */
  function Receive(app: App, m: Message, json: string -> Request, games: string -> Option<string>): App
    requires Known(app) && Deliverable(m)
  {
    Hear(app.(client := C.OnMessage(app.client, m)), m, |app.stack.layers|, json, games)
  }

  /** The topmost layer below position i that is not a login prompt: its position, i.e. one more than its
      index, 0 for none. */
  function Listener(app: App, i: nat): (p: nat)
    requires Known(app) && i <= |app.stack.layers|
    ensures p <= i
  {
    if i == 0 then 0
    else if app.layers[app.stack.layers[i - 1].id].LoginOverlay? then Listener(app, i - 1)
    else i
  }

  /** What a heard message leaves of a layer; it is not ok exactly when the battle throws, or the menu reads an
      argument that is not there. */
  ghost predicate Fits(l: Layer, h: Heard, m: Message, json: string -> Request)
    requires Complete(m)
  {
    && (h.handled <==> !l.LoginOverlay?)
    && (l.Menu? ==> h == Heard(l, [], None, true, h.ok)
                    && (!h.ok <==> (m.kind == "updateuser" || m.kind == "win") && m.args == []))
    && (l.LoginOverlay? ==> h == Heard(l, [], None, false, true))
    && (l.BattleLayer? ==> h.layer.BattleLayer? && h.layer.state == Apply(l.state, m, json).state
                           && h.ok == Apply(l.state, m, json).ok)
    && (h.submits.Some? ==> !h.submits.value.Command? && !h.submits.value.LayerPush?)
  }

  lemma HeardFits(l: Layer, id: nat, m: Message, json: string -> Request, games: string -> Option<string>)
    requires Deliverable(m)
    ensures Fits(l, OnMessage(l, id, m, json, games), m, json)
  {
  }

  lemma TakeNothing(app: App, id: nat)
    requires id in app.layers
    ensures Take(app, id, Heard(app.layers[id], [], None, false, true)) == app
  {
    assert app.layers[id := app.layers[id]] == app.layers;
  }

  lemma TakeFacts(app: App, id: nat, h: Heard)
    requires id in app.layers
    ensures var a := Take(app, id, h);
      && a.stack == app.stack && a.layers == app.layers[id := h.layer] && a.client == app.client
      && (a.defined <==> app.defined && h.ok) && a.nextId == app.nextId && a.running == app.running
      && a.queue == match h.submits case None => app.queue case Some(e) => Submit(app, e).queue
  {
  }

  /** A message is handled by the listener and by nothing else. */
  lemma {:induction false} OneListener(app: App, m: Message, i: nat, json: string -> Request,
                                       games: string -> Option<string>) returns (h: Heard)
    requires Known(app) && i <= |app.stack.layers| && Deliverable(m)
    ensures var p := Listener(app, i);
      if p == 0 then Hear(app, m, i, json, games) == app
      else
        var id := app.stack.layers[p - 1].id;
        && h == OnMessage(app.layers[id], id, m, json, games) && Fits(app.layers[id], h, m, json)
        && Hear(app, m, i, json, games) == Take(app, id, h)
    decreases i
  {
    hide Apply;
    if i == 0 {
      h := Heard(Menu, [], None, true, true);
    } else if app.layers[app.stack.layers[i - 1].id].LoginOverlay? {
      TakeNothing(app, app.stack.layers[i - 1].id);
      h := OneListener(app, m, i - 1, json, games);
    } else {
      var id := app.stack.layers[i - 1].id;
      h := OnMessage(app.layers[id], id, m, json, games);
      HeardFits(app.layers[id], id, m, json, games);
    }
  }

  /** Who hears the next message. */
  function ListenerId(app: App): (id: Option<nat>)
    requires Known(app)
    ensures id.Some? ==> id.value in app.layers
  {
    var p := Listener(app, |app.stack.layers|);
    if p == 0 then None else Some(app.stack.layers[p - 1].id)
  }

  /** One message: the session sees it, the listener takes it, the rest stays; and the application goes on
      unless the listener's handler does not return. */
  lemma Received(app: App, m: Message, json: string -> Request, games: string -> Option<string>)
    returns (h: Heard)
    requires Known(app) && Deliverable(m)
    ensures var a, id := Receive(app, m, json, games), ListenerId(app);
      && a.stack == app.stack && a.nextId == app.nextId && a.running == app.running
      && a.client == C.OnMessage(app.client, m)
      && if id.None? then a.layers == app.layers && a.defined == app.defined && a.queue == app.queue
         else
           && h == OnMessage(app.layers[id.value], id.value, m, json, games)
           && Fits(app.layers[id.value], h, m, json)
           && a.layers == app.layers[id.value := h.layer]
           && a.defined == (app.defined && h.ok)
           && a.queue == match h.submits case None => app.queue case Some(e) => Submit(app, e).queue
  {
    hide Apply, OnMessage, Fits, Take, Hear;
    var b, n := app.(client := C.OnMessage(app.client, m)), |app.stack.layers|;
    SameListener(app, b, n);
    h := OneListener(b, m, n, json, games);
    if Listener(app, n) > 0 { TakeFacts(b, b.stack.layers[Listener(app, n) - 1].id, h); }
  }

  lemma {:induction false} SameListener(app: App, a: App, i: nat)
    requires Known(app) && a.stack == app.stack && a.layers == app.layers && i <= |app.stack.layers|
    ensures Listener(a, i) == Listener(app, i)
  {
    if i > 0 { SameListener(app, a, i - 1); }
  }
}
