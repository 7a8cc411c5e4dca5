/** The main-thread event loop of src/app/psapp.cpp with the handlers of src/app/psapp.h: a bounded queue
    that handlers push into while it is being drained, dispatched down a stack of layers. */
module EventLoop {
  import opened Types
  import opened BattleState
  import L = LayerStack
  import C = PsClient

  datatype Event =
    | Command(text: string)
    | LayerPush(id: nat, isOverlay: bool)
    | LayerPop(id: nat, isOverlay: bool)
    | Login(isSignup: bool)
    | BattleSearch
    | BattleJoin

  datatype Layer =
    | Menu
    | LoginOverlay(enteredUsername: bool, enteredPassword: bool)
    | BattleLayer(state: Battle, room: string, timerActive: bool)

  /** `sends` are all texts passed to send, by the layers and the session, `lost` the submissions refused by a
      full queue; `defined` turns false where the code would step outside its vector of layers. Popped layers
      stay in `layers`, out of reach. */
  datatype App = App(queue: seq<Event>, stack: L.Stack, layers: map<nat, Layer>, client: C.Client,
                     nextId: nat, sends: seq<string>, lost: seq<Event>, running: bool, dirty: bool,
                     defined: bool)

  /** An SPSCQueue of capacity 64 holds 63 events. */
  const ROOM := 63

  /** The menu exists, and its push is the first event. */
  const NEW_APP := App([LayerPush(0, false)], L.EMPTY, map[0 := Menu], C.NEW_CLIENT, 1, [], [], true, false, true)

  function Submit(app: App, e: Event): App {
    if |app.queue| < ROOM then app.(queue := app.queue + [e]) else app.(lost := app.lost + [e])
  }

  // ---- handlers ----

  /** The blank-separated words of a line. */
  function Tokenize(text: string): seq<string>
    decreases |text|
  {
    SkipBlankShorter(text);
    var t := SkipBlank(text);
    if t == "" then [] else [Word(t)] + Tokenize(t[|Word(t)|..])
  }

  lemma {:induction false} SkipBlankShorter(s: string)
    ensures |SkipBlank(s)| <= |s| && (SkipBlank(s) != "" ==> !IsBlank(SkipBlank(s)[0]))
  {
    if s != "" && IsBlank(s[0]) { SkipBlankShorter(s[1..]); }
  }

  function Word(s: string): (w: string)
    ensures |w| <= |s| && (s != "" && !IsBlank(s[0]) ==> w != "")
    ensures forall c | c in w :: !IsBlank(c)
  {
    if s == "" || IsBlank(s[0]) then "" else [s[0]] + Word(s[1..])
  }

  /** What a handler does: the layer and client after it, texts sent, at most one event submitted, and
      whether the event stops here. */
  datatype Reaction = Reaction(layer: Layer, client: C.Client, sends: seq<string>, submits: Option<Event>,
                               handled: bool)

  function MenuCommand(id: nat, cmd: string): Option<Event> {
    if cmd == "1" then Some(BattleSearch)
    else if cmd == "2" then Some(Login(false))
    else if cmd == "3" then Some(Login(true))
    else if cmd == "q" then Some(LayerPop(id, false))
    else None
  }

  function LoginCommand(l: Layer, id: nat, cmd: string, client: C.Client, token: string): Reaction
    requires l.LoginOverlay?
  {
    var tokens := Tokenize(cmd);
    if |tokens| != 1 then Reaction(l, client, [], None, true) else LoginWord(l, id, tokens[0], client, token)
  }

  /** First word in: the username; second: the password, then the attempt to log in. */
  function LoginWord(l: Layer, id: nat, word: string, client: C.Client, token: string): Reaction
    requires l.LoginOverlay?
  {
    if !C.Acceptable(word) then Reaction(l, client, [], None, true)
    else if !l.enteredUsername then
      Reaction(l.(enteredUsername := true), C.SetUsername(client, word), [], None, true)
    else
      var c := C.SetPassword(client, word);
      if C.LoginSucceeds(c, token) then
        Reaction(l.(enteredPassword := true), C.TryLogin(c, token), [C.LoginText(c, token)],
                 Some(LayerPop(id, true)), true)
      else Reaction(LoginOverlay(false, false), c, [], None, true)
  }

  predicate IsChoice(word: string) { word == "1" || word == "2" || word == "3" || word == "4" }

  predicate IsSlot(cmd: string) {
    cmd == "s1" || cmd == "s2" || cmd == "s3" || cmd == "s4" || cmd == "s5" || cmd == "s6"
  }

  function BattleCommand(l: Layer, cmd: string, client: C.Client): Reaction
    requires l.BattleLayer?
  {
    var tokens := Tokenize(cmd);
    if tokens == [] then Reaction(l, client, [], None, true)
    else if IsChoice(tokens[0]) then
      var text :=
        if l.state.forceSwitch == Some(true) then "|/choose switch " + cmd[..1]
        else "|/choose move " + cmd[..1] + (if |tokens| == 2 && tokens[1] == "tera" then " terastallize" else "");
      Reaction(l, client, [l.room + text], None, true)
    else if cmd == "f" then Reaction(l, client, [l.room + "|/forfeit"], None, true)
    else if cmd == "t" then
      Reaction(l.(timerActive := !l.timerActive), client,
               [l.room + (if l.timerActive then "|/timer off" else "|/timer on")], None, true)
    else if IsSlot(cmd) then
      Reaction(l, client, [l.room + "|/choose switch " + cmd[1..]], None, true)
    else Reaction(l, client, [], None, true)
  }

  function OnCommand(l: Layer, id: nat, cmd: string, client: C.Client, token: string): Reaction {
    match l
    case Menu => Reaction(l, client, [], MenuCommand(id, cmd), cmd != "q")
    case LoginOverlay(_, _) => LoginCommand(l, id, cmd, client, token)
    case BattleLayer(_, _, _) => BattleCommand(l, cmd, client)
  }

  function React(app: App, id: nat, r: Reaction): App {
    var a := app.(layers := app.layers[id := r.layer], client := r.client, sends := app.sends + r.sends);
    match r.submits case None => a case Some(e) => Submit(a, e)
  }

  // ---- dispatch and drain ----

  /** Every layer in the stack exists. */
  ghost predicate Known(app: App) {
    forall i | 0 <= i < |app.stack.layers| :: app.stack.layers[i].id in app.layers
  }

  /** Only commands have handlers among queued events. */
  function OnEvent(l: Layer, id: nat, e: Event, client: C.Client, token: string): Reaction {
    if e.Command? then OnCommand(l, id, e.text, client, token) else Reaction(l, client, [], None, false)
  }

  /** push_to_layers from below position i. */
  function Dispatch(app: App, e: Event, i: nat, token: string): App
    requires Known(app) && i <= |app.stack.layers|
    decreases i
  {
    if i == 0 then app
    else
      var id := app.stack.layers[i - 1].id;
      var r := OnEvent(app.layers[id], id, e, app.client, token);
      if r.handled then React(app, id, r) else Dispatch(React(app, id, r), e, i - 1, token)
  }

  function StackOp(app: App, op: L.Op): App {
    if L.Defined(app.stack, op) then app.(stack := L.Step(app.stack, op), dirty := true)
    else app.(defined := false)
  }

  function PushNew(app: App, layer: Layer): App {
    StackOp(app.(layers := app.layers[app.nextId := layer], nextId := app.nextId + 1), L.PushOverlay(app.nextId))
  }

  /** The switch of poll, before the event goes to the layers. */
  function Handle(app: App, e: Event): App {
    match e
    case Command(cmd) => if cmd == "q" then app.(running := false) else app
    case LayerPush(id, isOverlay) => StackOp(app, if isOverlay then L.PushOverlay(id) else L.PushLayer(id))
    case LayerPop(id, isOverlay) => StackOp(app, if isOverlay then L.PopOverlay(id) else L.PopLayer(id))
    case Login(_) => PushNew(app, LoginOverlay(false, false))
    case BattleSearch =>
      PushNew(app, BattleLayer(FRESH, "", false)).(sends := app.sends + ["|/search gen9randombattle"])
    case BattleJoin => app.(dirty := true)
  }

  /** The menu is only ever at the bottom, and identities are used once. */
  ghost predicate Settled(app: App) {
    && Known(app)
    && (forall i | 0 < i < |app.stack.layers| :: !app.layers[app.stack.layers[i].id].Menu?)
    && (forall id | id in app.layers :: id < app.nextId)
    && app.nextId > 0
  }

  /** Once the menu has been pushed: every layer ever made is on the stack or detached, and the offset counts
      one layer push less all detachments. */
  ghost predicate Stacked(app: App) {
    var gone := L.Gone(app.stack);
    && |app.stack.layers| + gone == app.nextId
    && app.stack.offset == (1 - gone) % L.U32
    && (app.nextId <= L.U32 ==> gone <= 2)
  }

  /** Nothing has been pushed yet. */
  ghost predicate Unstacked(app: App) { app.stack == L.EMPTY && app.nextId == 1 && 0 in app.layers }

  /** A queued layer push is the menu's, the first event of all. */
  ghost predicate PushFirst(app: App) {
    && |app.queue| <= ROOM
    && (forall k | 0 < k < |app.queue| :: !app.queue[k].LayerPush?)
    && if app.queue == [] then Stacked(app) else MayHandle(app, app.queue[0])
  }

  ghost predicate Inv(app: App) { Settled(app) && PushFirst(app) }

  ghost predicate MayHandle(app: App, e: Event) {
    if e.LayerPush? then e == LayerPush(0, false) && Unstacked(app) else Stacked(app)
  }

  /** These entries may be on the stack: they exist, and only the bottom one is a menu. */
  ghost predicate Stands(ls: seq<L.Entry>, layers: map<nat, Layer>) {
    && (forall i | 0 <= i < |ls| :: ls[i].id in layers)
    && (forall i | 0 < i < |ls| :: !layers[ls[i].id].Menu?)
  }

  lemma PushStands(ls: seq<L.Entry>, layers: map<nat, Layer>, e: L.Entry)
    requires Stands(ls, layers) && e.id in layers && (ls == [] || !layers[e.id].Menu?)
    ensures Stands(ls + [e], layers)
  {
  }

  lemma RemoveStands(ls: seq<L.Entry>, layers: map<nat, Layer>, v: nat)
    requires Stands(ls, layers) && v < |ls|
    ensures Stands(L.RemoveAt(ls, v), layers)
  {
    var t := L.RemoveAt(ls, v);
    forall i | 0 <= i < |t| ensures t[i].id in layers && (i > 0 ==> !layers[t[i].id].Menu?) {
      assert t[i] == ls[if i < v then i else i + 1];
    }
  }

  lemma StackOpStands(s: L.Stack, layers: map<nat, Layer>, op: L.Op)
    requires Stands(s.layers, layers) && L.Defined(s, op)
    requires L.IsPush(op) ==> op.id in layers && (s.layers == [] || (op.PushOverlay? && !layers[op.id].Menu?))
    ensures Stands(L.Step(s, op).layers, layers)
  {
    hide Stands, L.RemoveAt, L.Victim;
    if L.IsPush(op) {
      PushStands(s.layers, layers, L.Entry(op.id, op.PushOverlay?));
      assert L.Step(s, op).layers == s.layers + [L.Entry(op.id, op.PushOverlay?)];
    } else if L.Removes(s, op) {
      RemoveStands(s.layers, layers, L.Victim(s, op));
    }
  }

  /** A stack operation that brings nothing in, or a layer that is there and may be where it goes. */
  lemma StackOpSettled(app: App, op: L.Op)
    requires Settled(app)
    requires L.IsPush(op) ==> op.id in app.layers
    requires op.PushLayer? ==> app.stack.layers == []
    requires op.PushOverlay? ==> app.stack.layers == [] || !app.layers[op.id].Menu?
    ensures Settled(StackOp(app, op))
  {
    hide L.Step, L.Defined;
    assert Stands(app.stack.layers, app.layers);
    if L.Defined(app.stack, op) {
      StackOpStands(app.stack, app.layers, op);
    }
  }

  lemma PushNewSettled(app: App, layer: Layer)
    requires Settled(app) && !layer.Menu?
    ensures Settled(PushNew(app, layer))
  {
    StackOpSettled(app.(layers := app.layers[app.nextId := layer], nextId := app.nextId + 1),
                   L.PushOverlay(app.nextId));
  }

  lemma HandleSettled(app: App, e: Event)
    requires Settled(app) && MayHandle(app, e)
    ensures Settled(Handle(app, e))
  {
    match e
    case LayerPush(id, isOverlay) => StackOpSettled(app, if isOverlay then L.PushOverlay(id) else L.PushLayer(id));
    case LayerPop(id, isOverlay) => StackOpSettled(app, if isOverlay then L.PopOverlay(id) else L.PopLayer(id));
    case Login(_) => PushNewSettled(app, LoginOverlay(false, false));
    case BattleSearch => PushNewSettled(app, BattleLayer(FRESH, "", false));
    case _ =>
  }

  lemma StackOpKeeps(app: App, op: L.Op)
    ensures var a := StackOp(app, op);
      && a.queue == app.queue && a.lost == app.lost && a.client == app.client && (app.defined || !a.defined)
      && a.nextId == app.nextId && a.layers == app.layers && a.running == app.running
  {
    hide L.Step, L.Defined;
  }

  lemma PushNewKeeps(app: App, layer: Layer)
    ensures var a := PushNew(app, layer);
      && a.queue == app.queue && a.lost == app.lost && a.client == app.client && (app.defined || !a.defined)
      && a.nextId == app.nextId + 1
  {
    hide StackOp;
    StackOpKeeps(app.(layers := app.layers[app.nextId := layer], nextId := app.nextId + 1),
                 L.PushOverlay(app.nextId));
  }

  lemma HandleKeeps(app: App, e: Event)
    ensures var a := Handle(app, e);
      && a.queue == app.queue && a.lost == app.lost && a.client == app.client && (app.defined || !a.defined)
      && app.nextId <= a.nextId <= app.nextId + 1
  {
    hide StackOp, PushNew;
    match e
    case LayerPush(id, isOverlay) => StackOpKeeps(app, if isOverlay then L.PushOverlay(id) else L.PushLayer(id));
    case LayerPop(id, isOverlay) => StackOpKeeps(app, if isOverlay then L.PopOverlay(id) else L.PopLayer(id));
    case Login(_) => PushNewKeeps(app, LoginOverlay(false, false));
    case BattleSearch => PushNewKeeps(app, BattleLayer(FRESH, "", false));
    case _ =>
  }

  // ---- when the stack stays defined ----

  /** The offset lies past the end of the vector, so that begin() + offset does. */
  predicate PastEnd(s: L.Stack) { (1 - L.Gone(s)) % L.U32 > |s.layers| }

  /** With fewer than 2^32 overlays ever made: the offset is 1, 0 and 2^32 - 1 after no, one and two
      detachments, there is never a third, and only after two does the offset lie past the end. */
  lemma OffsetsTaken(app: App)
    requires Settled(app) && Stacked(app) && app.nextId <= L.U32
    ensures var gone := L.Gone(app.stack);
      && gone <= 2
      && app.stack.offset == (if gone == 0 then 1 else if gone == 1 then 0 else L.U32 - 1)
      && (PastEnd(app.stack) <==> gone == 2)
  {
  }

  lemma PushStacked(app: App, layer: Layer)
    requires Stacked(app)
    ensures Stacked(PushNew(app, layer))
  {
    L.GoneStep(app.stack, L.PushOverlay(app.nextId));
  }

  lemma PopStacked(app: App, op: L.Op)
    requires Stacked(app) && !L.IsPush(op) && app.nextId > 0
    ensures Stacked(StackOp(app, op))
    ensures StackOp(app, op).defined <==> app.defined && !PastEnd(app.stack)
  {
    if L.Defined(app.stack, op) {
      L.GoneStep(app.stack, op);
      if L.Removes(app.stack, op) {
        L.OffsetFollows(app.stack.offset, 1 - L.Gone(app.stack));
      }
    }
  }

  /** Handling an event leaves the menu pushed and the offset a count, and the only thing that can leave the
      vector is a layer pop when the offset lies past the end. */
  lemma HandleDefined(app: App, e: Event)
    requires Settled(app) && MayHandle(app, e)
    ensures Stacked(Handle(app, e))
    ensures Handle(app, e).defined <==> app.defined && !(e.LayerPop? && PastEnd(app.stack))
  {
    match e
    case LayerPush(id, _) => L.GoneStep(app.stack, L.PushLayer(id));
    case LayerPop(id, isOverlay) => PopStacked(app, if isOverlay then L.PopOverlay(id) else L.PopLayer(id));
    case Login(_) => PushStacked(app, LoginOverlay(false, false));
    case BattleSearch => PushStacked(app, BattleLayer(FRESH, "", false));
    case _ =>
  }

  // ---- what a dispatch does ----

  /** The same kind of layer, and the same battle if it is one. */
  predicate Akin(l: Layer, k: Layer) {
    match l
    case Menu => k.Menu?
    case LoginOverlay(_, _) => k.LoginOverlay?
    case BattleLayer(state, room, _) => k.BattleLayer? && k.state == state && k.room == room
  }

  /** What dispatching an event to the layers can do: keep the stack, all kinds of layers and every battle,
      and submit at most one event, only for a command, never a command or a layer push. */
  ghost predicate Dispatched(app: App, a: App, e: Event) {
    && a.stack == app.stack && a.layers.Keys == app.layers.Keys && a.nextId == app.nextId
    && (forall id | id in app.layers :: Akin(app.layers[id], a.layers[id]))
    && a.defined == app.defined && a.running == app.running
    && exists out :: MayFollow(e, out) && Queued(app, a, out)
  }

  predicate MayFollow(e: Event, out: Option<Event>) {
    out.Some? ==> e.Command? && !out.value.Command? && !out.value.LayerPush?
  }

  /** The queue is as after submitting `out`, if anything. */
  predicate Queued(app: App, a: App, out: Option<Event>) {
    var b := match out case None => app case Some(e) => Submit(app, e);
    a.queue == b.queue && a.lost == b.lost
  }

  lemma ReactDispatched(app: App, id: nat, r: Reaction, e: Event)
    requires id in app.layers && Akin(app.layers[id], r.layer) && MayFollow(e, r.submits)
    ensures Dispatched(app, React(app, id, r), e)
  {
    assert Queued(app, React(app, id, r), r.submits);
  }

  lemma OneReaction(l: Layer, id: nat, cmd: string, client: C.Client, token: string)
    ensures var r := OnCommand(l, id, cmd, client, token);
      Akin(l, r.layer) && MayFollow(Command(cmd), r.submits) && (!r.handled ==> l.Menu?)
  {
  }

  lemma {:induction false} DispatchOnce(app: App, e: Event, i: nat, token: string)
    requires Settled(app) && i <= |app.stack.layers|
    ensures Dispatched(app, Dispatch(app, e, i, token), e)
  {
    if i == 0 || !e.Command? {
      Unheard(app, e, i, token);
      assert MayFollow(e, None) && Queued(app, app, None);
    } else {
      var id := app.stack.layers[i - 1].id;
      OneReaction(app.layers[id], id, e.text, app.client, token);
      var r := OnCommand(app.layers[id], id, e.text, app.client, token);
      ReactDispatched(app, id, r, e);
      if !r.handled {
        assert i == 1;
        assert Dispatch(React(app, id, r), e, 0, token) == React(app, id, r);
      }
    }
  }

  lemma {:induction false} Unheard(app: App, e: Event, i: nat, token: string)
    requires Known(app) && i <= |app.stack.layers| && (i == 0 || !e.Command?)
    ensures Dispatch(app, e, i, token) == app
  {
    if i > 0 {
      ReactNothing(app, app.stack.layers[i - 1].id);
      Unheard(app, e, i - 1, token);
    }
  }

  function Deliver(app: App, e: Event, token: string): App
    requires Known(app)
  {
    if !app.defined then app else Dispatch(app, e, |app.stack.layers|, token)
  }

  lemma ReactNothing(app: App, id: nat)
    requires id in app.layers
    ensures React(app, id, Reaction(app.layers[id], app.client, [], None, false)) == app
  {
    assert app.layers[id := app.layers[id]] == app.layers && app.sends + [] == app.sends;
  }

  /** One turn of the loop in poll, after the pop; `token` is what request_assertion answers if asked. */
  function Process(app: App, e: Event, token: string): App
    requires Settled(app) && MayHandle(app, e)
  {
    HandleSettled(app, e);
    Deliver(Handle(app, e), e, token)
  }

  /** A command reaches the topmost layer and no other. */
  lemma CommandsGoToTheTop(app: App, cmd: string, token: string)
    requires Settled(app) && app.stack.layers != []
    ensures var n := |app.stack.layers|;
      var id := app.stack.layers[n - 1].id;
      Dispatch(app, Command(cmd), n, token) == React(app, id, OnCommand(app.layers[id], id, cmd, app.client, token))
  {
    var n := |app.stack.layers|;
    var id := app.stack.layers[n - 1].id;
    OneReaction(app.layers[id], id, cmd, app.client, token);
    var r := OnCommand(app.layers[id], id, cmd, app.client, token);
    ReactDispatched(app, id, r, Command(cmd));
    if !r.handled {
      assert n == 1;
      assert Dispatch(React(app, id, r), Command(cmd), 0, token) == React(app, id, r);
    }
  }
}
