/** Messages about Pokemon that arrive before the first request, when your side is still unknown and every
    team is the opponent's: what the request's clean-up recovers. */
module BattleReorder {
  import opened Types
  import opened Parser
  import opened BattleState

  predicate IsSwitch(m: Message) { m.kind == "switch" || m.kind == "drag" }

  /** A complete message that is not a request with content, and whose identifier, if it has one, names a
      side. */
  predicate EarlyMessage(m: Message) {
    && Complete(m)
    && (m.kind == "request" ==> m.args[0] == "")
    && (OpOf(m).Some? ==> ParseIdent(m.args[0]).side != "")
  }

  ghost predicate EarlyLog(log: seq<Message>) { forall m | m in log :: EarlyMessage(m) }

  /** No name another side switches in is ever used by this side. */
  ghost predicate NamesApart(log: seq<Message>, side: string)
    requires EarlyLog(log)
  {
    forall m, n | m in log && n in log && OpOf(m).Some? && IsSwitch(n) ::
      ParseIdent(m.args[0]).side == side && ParseIdent(n.args[0]).side != side ==>
      ParseIdent(m.args[0]).name != ParseIdent(n.args[0]).name
  }

  /** The last switch of the log, if any, is by this side. */
  predicate LastSwitchBy(log: seq<Message>, side: string)
    requires forall m | m in log :: Complete(m)
  {
    log != [] &&
    var last := log[|log| - 1];
    assert last in log && Complete(last) && forall m | m in log[..|log| - 1] :: m in log;
    if IsSwitch(last) then ParseIdent(last.args[0]).side == side else LastSwitchBy(log[..|log| - 1], side)
  }

  // ---- clean-up commutes with what messages do ----

  lemma {:induction false} OthersRest(team: seq<Pokemon>, side: string)
    ensures Others(Deactivate(team), side) == Deactivate(Others(team, side))
  {
    if team != [] { OthersRest(team[1..], side); }
  }

  lemma {:induction false} RestTwice(team: seq<Pokemon>)
    ensures Deactivate(Deactivate(team)) == Deactivate(team)
  {
  }

  lemma {:induction false} OthersAppend(team: seq<Pokemon>, p: Pokemon, side: string)
    ensures Others(team + [p], side) == Others(team, side) + (if SideOf(p) == side then [] else [p])
  {
    if team == [] {
      assert team + [p] == [p] && Others([p][1..], side) == [];
    } else {
      assert (team + [p])[1..] == team[1..] + [p];
      OthersAppend(team[1..], p, side);
    }
  }

  /** The Pokemon of the other sides are exactly those of the foes' names. */
  ghost predicate Owned(team: seq<Pokemon>, side: string, foe: string -> bool) {
    forall i | 0 <= i < |team| :: SideOf(team[i]) != side <==> foe(team[i].name)
  }

  lemma {:induction false} OthersUpdate(team: seq<Pokemon>, side: string, name: string, op: Op, foe: string -> bool)
    requires Owned(team, side, foe)
    ensures Others(Update(team, name, op).team, side) ==
      if foe(name) then Update(Others(team, side), name, op).team else Others(team, side)
  {
    if team != [] {
      if team[0].name == name {
        ChangeKeeps(team[0], op);
      } else {
        OthersUpdate(team[1..], side, name, op, foe);
      }
    }
  }

  lemma {:induction false} OthersHas(team: seq<Pokemon>, side: string, name: string, foe: string -> bool)
    requires Owned(team, side, foe)
    ensures Has(Others(team, side), name) <==> foe(name) && Has(team, name)
  {
    if team != [] {
      OthersHas(team[1..], side, name, foe);
      HasCons(team, name);
      if SideOf(team[0]) != side { HasCons(Others(team, side), name); }
    }
  }

  lemma UpdateMissing(team: seq<Pokemon>, name: string, op: Op)
    requires !Has(team, name)
    ensures Update(team, name, op).team == team
  {
    UpdateAt(team, name, op);
    HasAt(team, name);
  }

  lemma HasCons(team: seq<Pokemon>, name: string)
    requires team != []
    ensures Has(team, name) <==> team[0].name == name || Has(team[1..], name)
  {
    assert forall p | p in team :: p == team[0] || p in team[1..];
    assert forall p | p in team[1..] :: p in team;
    assert team[0] in team;
  }

  lemma UpdateOwned(team: seq<Pokemon>, name: string, op: Op, side: string, foe: string -> bool)
    requires Owned(team, side, foe)
    ensures Owned(Update(team, name, op).team, side, foe)
  {
    UpdateAt(team, name, op);
    var i := IndexOf(team, name);
    if i < |team| { ChangeKeeps(team[i], op); }
  }

  /** A message keeps to the foes' names: this side never uses one, and the others switch in no other. */
  predicate Fair(ident: string, op: Op, side: string, foe: string -> bool) {
    var id := ParseIdent(ident);
    && (id.side == side ==> !foe(id.name))
    && (op.SwitchIn? ==> op.ident == ident && (id.side != side ==> foe(id.name)))
  }

  lemma OnTeamOwned(team: seq<Pokemon>, ident: string, op: Op, side: string, foe: string -> bool)
    requires Owned(team, side, foe) && Fair(ident, op, side, foe)
    ensures Owned(OnTeam(team, ParseIdent(ident).name, op).team, side, foe)
  {
    var name := ParseIdent(ident).name;
    if op.SwitchIn? {
      var resting := Deactivate(team);
      assert Owned(resting, side, foe);
      UpdateOwned(if Has(resting, name) then resting else resting + [Unseen(ident, name)], name, op, side, foe);
    } else {
      UpdateOwned(team, name, op, side, foe);
    }
  }

  /** A message about the other side, applied to the mixed team and then cleaned, is the message applied to
      the cleaned team; one about this side only rests the others, and only if it is a switch. */
  lemma CleanAfter(team: seq<Pokemon>, side: string, ident: string, op: Op, foe: string -> bool)
    requires Owned(team, side, foe) && Fair(ident, op, side, foe)
    ensures var id, kept := ParseIdent(ident), Others(team, side);
      Others(OnTeam(team, id.name, op).team, side) ==
        if id.side != side then OnTeam(kept, id.name, op).team
        else if op.SwitchIn? then Deactivate(kept)
        else kept
  {
    var id, kept := ParseIdent(ident), Others(team, side);
    if op.SwitchIn? {
      CleanSwitch(team, side, ident, op, foe);
    } else {
      OthersUpdate(team, side, id.name, op, foe);
      OthersHas(team, side, id.name, foe);
      if !foe(id.name) { UpdateMissing(kept, id.name, op); }
    }
  }

  lemma CleanSwitch(team: seq<Pokemon>, side: string, ident: string, op: Op, foe: string -> bool)
    requires Owned(team, side, foe) && Fair(ident, op, side, foe) && op.SwitchIn?
    ensures var id, kept := ParseIdent(ident), Others(team, side);
      Others(OnTeam(team, id.name, op).team, side) ==
        if id.side != side then OnTeam(kept, id.name, op).team else Deactivate(kept)
  {
    var id, kept := ParseIdent(ident), Others(team, side);
    var resting, p := Deactivate(team), Unseen(ident, id.name);
    assert Owned(resting, side, foe);
    OthersRest(team, side);
    var entered := if Has(resting, id.name) then resting else resting + [p];
    assert Owned(entered, side, foe);
    OthersAppend(resting, p, side);
    OthersUpdate(entered, side, id.name, op, foe);
    OthersHas(resting, side, id.name, foe);
  }

  lemma {:induction false} RestUpdate(team: seq<Pokemon>, name: string, op: Op)
    requires !op.SwitchIn?
    ensures Update(Deactivate(team), name, op).team == Deactivate(Update(team, name, op).team)
  {
    if team != [] {
      if team[0].name == name {
        var a, b := Change(team[0].(active := false), op).mon, Change(team[0], op).mon;
        assert a == b.(active := false);
        assert Deactivate([b] + team[1..]) == [a] + Deactivate(team[1..]);
      } else {
        RestUpdate(team[1..], name, op);
      }
    }
  }

  lemma RestOnTeam(team: seq<Pokemon>, name: string, op: Op)
    ensures OnTeam(Deactivate(team), name, op).team ==
      if op.SwitchIn? then OnTeam(team, name, op).team else Deactivate(OnTeam(team, name, op).team)
  {
    if op.SwitchIn? { RestTwice(team); } else { RestUpdate(team, name, op); }
  }

  // ---- the two orders, message by message ----

  ghost predicate AllFair(log: seq<Message>, side: string, foe: string -> bool)
    requires EarlyLog(log)
  {
    forall m | m in log && OpOf(m).Some? :: Fair(m.args[0], OpOf(m).value, side, foe)
  }

  /** The cleaned mixed team against the opponent team of a battle that knew the sides from the start. */
  ghost predicate Related(mixed: Battle, sided: Battle, rested: bool, foe: string -> bool) {
    && mixed.yourSide == "" && sided.yourSide != ""
    && Owned(mixed.theirs, sided.yourSide, foe)
    && Others(mixed.theirs, sided.yourSide) == if rested then Deactivate(sided.theirs) else sided.theirs
  }

  lemma RouteRelated(mixed: Battle, sided: Battle, rested: bool, foe: string -> bool, ident: string, op: Op)
    requires Related(mixed, sided, rested, foe)
    requires ParseIdent(ident).side != "" && Fair(ident, op, sided.yourSide, foe)
    ensures var id := ParseIdent(ident);
      Related(Route(mixed, id, op).state, Route(sided, id, op).state,
              if op.SwitchIn? then id.side == sided.yourSide else rested, foe)
  {
    var id := ParseIdent(ident);
    CleanAfter(mixed.theirs, sided.yourSide, ident, op, foe);
    OnTeamOwned(mixed.theirs, ident, op, sided.yourSide, foe);
    RestOnTeam(sided.theirs, id.name, op);
    RestTwice(sided.theirs);
  }

  lemma ApplyRelated(mixed: Battle, sided: Battle, rested: bool, foe: string -> bool, m: Message,
                     json: string -> Request)
    requires Related(mixed, sided, rested, foe) && EarlyMessage(m)
    requires OpOf(m).Some? ==> Fair(m.args[0], OpOf(m).value, sided.yourSide, foe)
    ensures Apply(sided, m, json).state.yourSide == sided.yourSide
    ensures Related(Apply(mixed, m, json).state, Apply(sided, m, json).state,
                    if IsSwitch(m) then ParseIdent(m.args[0]).side == sided.yourSide else rested, foe)
  {
    if OpOf(m).Some? {
      RouteRelated(mixed, sided, rested, foe, m.args[0], OpOf(m).value);
    }
  }

  lemma {:induction false} LogRelated(mixed: Battle, sided: Battle, log: seq<Message>, json: string -> Request,
                                      foe: string -> bool)
    requires EarlyLog(log) && AllFair(log, sided.yourSide, foe) && Related(mixed, sided, false, foe)
    ensures Run(sided, log, json).yourSide == sided.yourSide
    ensures Related(Run(mixed, log, json), Run(sided, log, json), LastSwitchBy(log, sided.yourSide), foe)
  {
    if log != [] {
      var last := |log| - 1;
      var m, front := log[last], log[..last];
      assert m in log && forall x | x in front :: x in log;
      LogRelated(mixed, sided, front, json, foe);
      ApplyRelated(Run(mixed, front, json), Run(sided, front, json), LastSwitchBy(front, sided.yourSide), foe, m,
                   json);
    }
  }

  /** The names another side switches in. */
  ghost function FoesOf(log: seq<Message>, side: string): string -> bool
    requires EarlyLog(log)
  {
    (name: string) =>
      exists m :: m in log && IsSwitch(m) && ParseIdent(m.args[0]).side != side && ParseIdent(m.args[0]).name == name
  }

  lemma {:induction false} RunConcat(s: Battle, a: seq<Message>, b: seq<Message>, json: string -> Request)
    requires forall m | m in a + b :: Complete(m)
    ensures (forall m | m in a :: Complete(m)) && (forall m | m in b :: Complete(m))
    ensures Run(s, a + b, json) == Run(Run(s, a, json), b, json)
  {
    hide Apply;
    assert forall m | m in a :: m in a + b;
    assert forall m | m in b :: m in a + b;
    if b == [] {
      assert a + b == a;
    } else {
      var last := |b| - 1;
      assert (a + b)[..|a + b| - 1] == a + b[..last];
      assert forall m | m in a + b[..last] :: m in a + b;
      RunConcat(s, a, b[..last], json);
    }
  }

  /** A first request with content that names your side. */
  predicate IsRequest(m: Message, json: string -> Request) {
    m.kind == "request" && m.args != [] && m.args[0] != "" && json(m.args[0]).sideId != ""
  }

  /** Reordering: if the first request comes after a log of other messages instead of before it, your team
      is the request's own list, and the opponent's team is the same in order, identifiers, names, hit
      points and faints; only active flags can be lost, all of them exactly when the log's last switch is
      yours. The names are kept apart because under a shared name one side's hit points and faints can reach
      the other's Pokemon; BattleNames says exactly when the identifiers agree without that. */
  lemma Reordering(log: seq<Message>, request: Message, json: string -> Request)
    requires EarlyLog(log) && IsRequest(request, json) && NamesApart(log, json(request.args[0]).sideId)
    ensures forall m | m in log + [request] || m in [request] + log :: Complete(m)
    ensures var r := json(request.args[0]);
      var late, early := Run(FRESH, log + [request], json), Run(FRESH, [request] + log, json);
      && late.yourSide == early.yourSide == r.sideId
      && late.yours == BuildTeam(r.pokemon).team
      && late.theirs == if LastSwitchBy(log, r.sideId) then Deactivate(early.theirs) else early.theirs
  {
    hide Run, Deactivate;
    var r := json(request.args[0]);
    BothOrders(log, request, json);
    LogRelated(FRESH, OnRequest(FRESH, r).state, log, json, FoesOf(log, r.sideId));
  }

  lemma BothOrders(log: seq<Message>, request: Message, json: string -> Request)
    requires EarlyLog(log) && IsRequest(request, json)
    ensures forall m | m in log + [request] || m in [request] + log :: Complete(m)
    ensures var r := json(request.args[0]);
      && Run(FRESH, log + [request], json) == OnRequest(Run(FRESH, log, json), r).state
      && Run(FRESH, [request] + log, json) == Run(OnRequest(FRESH, r).state, log, json)
  {
    RunConcat(FRESH, log, [request], json);
    RunConcat(FRESH, [request], log, json);
    OneMessage(FRESH, request, json);
    OneMessage(Run(FRESH, log, json), request, json);
  }

  lemma OneMessage(s: Battle, m: Message, json: string -> Request)
    requires Complete(m)
    ensures Run(s, [m], json) == Apply(s, m, json).state
  {
    assert [m][..0] == [];
    assert Run(s, [], json) == s;
  }
}
