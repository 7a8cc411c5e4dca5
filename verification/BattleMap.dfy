/** Once the sides are known, the battle state is a map from (side, name) to Pokemon: the linear searches,
    the routing and the two vectors are one way of storing it. */
module BattleMap {
  import opened Types
  import opened Parser
  import opened BattleState
  import opened BattleRuns

  type Key = (string, string)

  function OtherSide(side: string): string { if side == "p1" then "p2" else "p1" }

  predicate IsSide(side: string) { side == "p1" || side == "p2" }

  /** You are on p1 or p2, and every Pokemon is on the side of its team. */
  ghost predicate TwoSided(s: Battle) {
    && IsSide(s.yourSide)
    && (forall i | 0 <= i < |s.yours| :: SideOf(s.yours[i]) == s.yourSide)
    && (forall i | 0 <= i < |s.theirs| :: SideOf(s.theirs[i]) == OtherSide(s.yourSide))
  }

  function KeyOf(p: Pokemon): Key { (SideOf(p), p.name) }

  ghost predicate Ready(s: Battle) { Inv(s) && TwoSided(s) }

  function RosterOf(all: seq<Pokemon>): map<Key, Pokemon> {
    if all == [] then map[]
    else
      var last := |all| - 1;
      RosterOf(all[..last])[KeyOf(all[last]) := all[last]]
  }

  /** The battle as a map. */
  function Roster(s: Battle): map<Key, Pokemon> { RosterOf(s.yours + s.theirs) }

  lemma KeysDistinct(s: Battle)
    requires Ready(s)
    ensures var all := s.yours + s.theirs; forall i, j | 0 <= i < j < |all| :: KeyOf(all[i]) != KeyOf(all[j])
  {
    var all, n := s.yours + s.theirs, |s.yours|;
    forall i, j | 0 <= i < j < |all| ensures KeyOf(all[i]) != KeyOf(all[j]) {
      assert SideOf(all[i]) == if i < n then s.yourSide else OtherSide(s.yourSide);
      assert SideOf(all[j]) == if j < n then s.yourSide else OtherSide(s.yourSide);
      if i >= n { assert s.theirs[i - n].name != s.theirs[j - n].name; }
    }
  }

  // ---- the map's own operations ----

  function Rest(m: map<Key, Pokemon>, side: string): map<Key, Pokemon> {
    map k | k in m :: if k.0 == side then m[k].(active := false) else m[k]
  }

  /** A switch rests the whole side, then brings in the named Pokemon, new or known; the rest change a
      known Pokemon only. */
  function MapOp(m: map<Key, Pokemon>, key: Key, op: Op): map<Key, Pokemon> {
    match op
    case SwitchIn(ident, _) =>
      var m' := Rest(m, key.0);
      m'[key := Change(if key in m' then m'[key] else Unseen(ident, key.1), op).mon]
    case _ => if key in m then m[key := Change(m[key], op).mon] else m
  }

  function MapApply(m: map<Key, Pokemon>, msg: Message): map<Key, Pokemon>
    requires Complete(msg)
  {
    match OpOf(msg)
    case None => m
    case Some(op) =>
      var ident := ParseIdent(msg.args[0]);
      MapOp(m, (ident.side, ident.name), op)
  }

  // ---- refinement, one team at a time ----

  /** The entries of one side are exactly the Pokemon of a team. */
  ghost predicate TeamRep(m: map<Key, Pokemon>, side: string, team: seq<Pokemon>) {
    && (forall i | 0 <= i < |team| :: (side, team[i].name) in m && m[(side, team[i].name)] == team[i])
    && (forall k | k in m && k.0 == side :: Has(team, k.1))
  }

  lemma HasAny(team: seq<Pokemon>, i: nat)
    requires i < |team|
    ensures Has(team, team[i].name)
  {
    assert team[i] in team;
  }

  lemma RestRep(m: map<Key, Pokemon>, side: string, team: seq<Pokemon>)
    requires TeamRep(m, side, team)
    ensures TeamRep(Rest(m, side), side, Deactivate(team))
  {
    var r := Deactivate(team);
    forall k | k in m && k.0 == side ensures Has(r, k.1) {
      HasAt(team, k.1);
      HasAny(r, IndexOf(team, k.1));
    }
  }

  lemma UpdateRep(m: map<Key, Pokemon>, side: string, team: seq<Pokemon>, name: string, op: Op)
    requires TeamRep(m, side, team) && NamesDistinct(team)
    ensures var key := (side, name);
      TeamRep(if key in m then m[key := Change(m[key], op).mon] else m, side, Update(team, name, op).team)
  {
    UpdateAt(team, name, op);
    HasAt(team, name);
    var i := IndexOf(team, name);
    if i < |team| {
      ChangeKeeps(team[i], op);
      ReplaceRep(m, side, team, i, Change(team[i], op).mon);
    }
  }

  lemma ReplaceRep(m: map<Key, Pokemon>, side: string, team: seq<Pokemon>, i: nat, p: Pokemon)
    requires TeamRep(m, side, team) && NamesDistinct(team) && i < |team| && p.name == team[i].name
    ensures TeamRep(m[(side, p.name) := p], side, team[i := p])
  {
    var r := team[i := p];
    forall k | k in m && k.0 == side ensures Has(r, k.1) {
      HasAt(team, k.1);
      HasAny(r, IndexOf(team, k.1));
    }
  }

  lemma AddRep(m: map<Key, Pokemon>, side: string, team: seq<Pokemon>, p: Pokemon)
    requires TeamRep(m, side, team) && !Has(team, p.name)
    ensures TeamRep(m[(side, p.name) := p], side, team + [p])
  {
    var r := team + [p];
    forall i | 0 <= i < |team| ensures team[i].name != p.name { assert team[i] in team; }
    forall k | k in m[(side, p.name) := p] && k.0 == side ensures Has(r, k.1) {
      if k.1 == p.name {
        HasAny(r, |team|);
      } else {
        HasAt(team, k.1);
        HasAny(r, IndexOf(team, k.1));
      }
    }
  }

  /** Two maps agree off a side. */
  ghost predicate SameElsewhere(m: map<Key, Pokemon>, m': map<Key, Pokemon>, side: string) {
    forall k: Key | k.0 != side :: (k in m' <==> k in m) && (k in m ==> m'[k] == m[k])
  }

  lemma NewRep(m: map<Key, Pokemon>, side: string, team: seq<Pokemon>, p: Pokemon, op: Op)
    requires TeamRep(m, side, team) && NamesDistinct(team) && !Has(team, p.name)
    ensures (side, p.name) !in m
    ensures TeamRep(m[(side, p.name) := Change(p, op).mon], side, Update(team + [p], p.name, op).team)
  {
    var key := (side, p.name);
    AddRep(m, side, team, p);
    assert forall i | 0 <= i < |team| :: team[i] in team;
    UpdateRep(m[key := p], side, team + [p], p.name, op);
    assert m[key := p][key := Change(p, op).mon] == m[key := Change(p, op).mon];
  }

  lemma KnownRep(m: map<Key, Pokemon>, side: string, team: seq<Pokemon>, name: string, op: Op)
    requires TeamRep(m, side, team) && NamesDistinct(team) && Has(team, name)
    ensures (side, name) in m
    ensures TeamRep(m[(side, name) := Change(m[(side, name)], op).mon], side, Update(team, name, op).team)
  {
    HasAt(team, name);
    assert team[IndexOf(team, name)].name == name;
    UpdateRep(m, side, team, name, op);
  }

  lemma SwitchRep(m: map<Key, Pokemon>, side: string, team: seq<Pokemon>, name: string, op: Op)
    requires TeamRep(m, side, team) && NamesDistinct(team) && op.SwitchIn?
    ensures TeamRep(MapOp(m, (side, name), op), side, OnTeam(team, name, op).team)
  {
    var resting := Deactivate(team);
    RestRep(m, side, team);
    if Has(resting, name) {
      KnownRep(Rest(m, side), side, resting, name, op);
    } else {
      NewRep(Rest(m, side), side, resting, Unseen(op.ident, name), op);
    }
  }

  lemma OnTeamRep(m: map<Key, Pokemon>, side: string, team: seq<Pokemon>, name: string, op: Op)
    requires TeamRep(m, side, team) && NamesDistinct(team)
    ensures TeamRep(MapOp(m, (side, name), op), side, OnTeam(team, name, op).team)
    ensures SameElsewhere(m, MapOp(m, (side, name), op), side)
  {
    if op.SwitchIn? {
      SwitchRep(m, side, team, name, op);
    } else {
      UpdateRep(m, side, team, name, op);
    }
  }

  // ---- refinement of the whole state ----

  ghost predicate Represents(m: map<Key, Pokemon>, s: Battle) {
    && TeamRep(m, s.yourSide, s.yours)
    && TeamRep(m, OtherSide(s.yourSide), s.theirs)
    && forall k | k in m :: IsSide(k.0)
  }

  lemma {:induction false} RosterOfHolds(all: seq<Pokemon>, i: nat)
    requires i < |all| && forall j, k | 0 <= j < k < |all| :: KeyOf(all[j]) != KeyOf(all[k])
    ensures KeyOf(all[i]) in RosterOf(all) && RosterOf(all)[KeyOf(all[i])] == all[i]
  {
    var last := |all| - 1;
    if i < last { RosterOfHolds(all[..last], i); }
  }

  lemma RosterHolds(s: Battle, i: nat)
    requires Ready(s) && i < |s.yours + s.theirs|
    ensures var p := (s.yours + s.theirs)[i]; KeyOf(p) in Roster(s) && Roster(s)[KeyOf(p)] == p
  {
    KeysDistinct(s);
    RosterOfHolds(s.yours + s.theirs, i);
  }

  lemma {:induction false} RosterOfKey(all: seq<Pokemon>, k: Key) returns (i: nat)
    requires k in RosterOf(all)
    ensures i < |all| && KeyOf(all[i]) == k
  {
    i := |all| - 1;
    if KeyOf(all[i]) != k { i := RosterOfKey(all[..i], k); }
  }

  lemma RosterKey(s: Battle, k: Key)
    requires Ready(s) && k in Roster(s)
    ensures IsSide(k.0)
    ensures if k.0 == s.yourSide then Has(s.yours, k.1) else Has(s.theirs, k.1)
  {
    var n := |s.yours|;
    var i := RosterOfKey(s.yours + s.theirs, k);
    if i < n {
      HasAny(s.yours, i);
      assert SideOf(s.yours[i]) == s.yourSide;
    } else {
      HasAny(s.theirs, i - n);
      assert SideOf(s.theirs[i - n]) == OtherSide(s.yourSide);
    }
  }

  lemma RosterRepresents(s: Battle)
    requires Ready(s)
    ensures Represents(Roster(s), s)
  {
    hide RosterOf, Has;
    var m, all := Roster(s), s.yours + s.theirs;
    forall i | 0 <= i < |s.yours| ensures var k := (s.yourSide, s.yours[i].name); k in m && m[k] == s.yours[i] {
      RosterHolds(s, i);
      assert all[i] == s.yours[i];
    }
    forall i | 0 <= i < |s.theirs|
      ensures var k := (OtherSide(s.yourSide), s.theirs[i].name); k in m && m[k] == s.theirs[i]
    {
      RosterHolds(s, |s.yours| + i);
      assert all[|s.yours| + i] == s.theirs[i];
    }
    forall k | k in m
      ensures IsSide(k.0) && if k.0 == s.yourSide then Has(s.yours, k.1) else Has(s.theirs, k.1)
    {
      RosterKey(s, k);
    }
  }

  lemma RepresentsUnique(m: map<Key, Pokemon>, n: map<Key, Pokemon>, s: Battle)
    requires IsSide(s.yourSide) && Represents(m, s) && Represents(n, s)
    ensures m == n
  {
    RepresentsWithin(m, n, s);
    RepresentsWithin(n, m, s);
  }

  lemma RepresentsWithin(m: map<Key, Pokemon>, n: map<Key, Pokemon>, s: Battle)
    requires IsSide(s.yourSide) && Represents(m, s) && Represents(n, s)
    ensures forall k | k in m :: k in n && n[k] == m[k]
  {
    forall k | k in m ensures k in n && n[k] == m[k] {
      var team := if k.0 == s.yourSide then s.yours else s.theirs;
      HasAt(team, k.1);
      var i := IndexOf(team, k.1);
      assert k == (k.0, team[i].name);
    }
  }

  /** find_pokemon is map lookup. */
  lemma FindIsLookup(s: Battle, ident: Ident)
    requires Ready(s) && IsSide(ident.side)
    ensures FindPokemon(s, ident) ==
      var key := (ident.side, ident.name); if key in Roster(s) then Some(Roster(s)[key]) else None
  {
    RosterRepresents(s);
    var team, key := TeamOf(s, ident.side), (ident.side, ident.name);
    FindAt(team, ident.name);
    HasAt(team, ident.name);
    var i := IndexOf(team, ident.name);
    if i < |team| { assert key == (ident.side, team[i].name); }
  }

  lemma {:induction false} FindAt(team: seq<Pokemon>, name: string)
    ensures var i := IndexOf(team, name); FindIn(team, name) == if i < |team| then Some(team[i]) else None
  {
    if team != [] && team[0].name != name { FindAt(team[1..], name); }
  }

  /** A message naming no Pokemon, or one of p1 or p2. */
  predicate NamesSide(m: Message)
    requires Complete(m)
  {
    OpOf(m).Some? ==> IsSide(ParseIdent(m.args[0]).side)
  }

  lemma RouteReady(s: Battle, ident: string, op: Op)
    requires Ready(s) && IsSide(ParseIdent(ident).side) && (op.SwitchIn? ==> op.ident == ident)
    ensures Ready(Route(s, ParseIdent(ident), op).state)
  {
    hide OnTeam, ParseIdent;
    var id := ParseIdent(ident);
    var team := TeamOf(s, id.side);
    var r := OnTeam(team, id.name, op).team;
    OnTeamOk(team, id.name, op);
    forall i | 0 <= i < |r| ensures SideOf(r[i]) == id.side {
      if i < |team| { assert SideOf(team[i]) == id.side; }
    }
  }

  lemma RouteRefines(s: Battle, ident: string, op: Op)
    requires Ready(s) && IsSide(ParseIdent(ident).side) && (op.SwitchIn? ==> op.ident == ident)
    requires Ready(Route(s, ParseIdent(ident), op).state)
    ensures var id := ParseIdent(ident);
      Roster(Route(s, id, op).state) == MapOp(Roster(s), (id.side, id.name), op)
  {
    var id := ParseIdent(ident);
    var s', m' := Route(s, id, op).state, MapOp(Roster(s), (id.side, id.name), op);
    RosterRepresents(s);
    OnTeamRep(Roster(s), id.side, TeamOf(s, id.side), id.name, op);
    OtherTeamRep(Roster(s), m', s, id.side);
    RosterRepresents(s');
    RepresentsUnique(Roster(s'), m', s');
  }

  /** Refinement: every later message does to the two teams what the map operation does to the map. */
  lemma ApplyRefines(s: Battle, m: Message, json: string -> Request)
    requires Ready(s) && Complete(m) && NamesSide(m)
    ensures Ready(Apply(s, m, json).state)
    ensures Roster(Apply(s, m, json).state) == MapApply(Roster(s), m)
  {
    match OpOf(m)
    case Some(op) =>
      RouteReady(s, m.args[0], op);
      RouteRefines(s, m.args[0], op);
    case None =>
      assert Apply(s, m, json).state.yours == s.yours && Apply(s, m, json).state.theirs == s.theirs;
  }

  lemma OtherTeamRep(m: map<Key, Pokemon>, m': map<Key, Pokemon>, s: Battle, side: string)
    requires IsSide(side) && IsSide(s.yourSide) && Represents(m, s)
    requires SameElsewhere(m, m', side)
    ensures var other := if side == s.yourSide then OtherSide(s.yourSide) else s.yourSide;
      TeamRep(m', other, if side == s.yourSide then s.theirs else s.yours)
    ensures forall k | k in m' :: IsSide(k.0)
  {
  }

  // ---- from a new battle to the first request and on ----

  /** Every message is complete and names p1 or p2; every request is a snapshot of one of them. */
  ghost predicate WellSided(ms: seq<Message>, json: string -> Request) {
    && Requests(ms, json)
    && forall m | m in ms ::
         NamesSide(m) && (m.kind == "request" && m.args[0] != "" ==> IsSide(json(m.args[0]).sideId))
  }

  /** Before the sides are known the opponent's team holds both, and yours is empty. */
  ghost predicate Sided(s: Battle) {
    && (s.yourSide == "" || IsSide(s.yourSide))
    && forall i | 0 <= i < |s.theirs| :: IsSide(SideOf(s.theirs[i]))
  }

  lemma RouteSided(s: Battle, ident: string, op: Op)
    requires Inv(s) && Sided(s) && IsSide(ParseIdent(ident).side) && (op.SwitchIn? ==> op.ident == ident)
    ensures Sided(Route(s, ParseIdent(ident), op).state)
  {
    var id := ParseIdent(ident);
    var team := TeamOf(s, id.side);
    var r := OnTeam(team, id.name, op).team;
    OnTeamOk(team, id.name, op);
    if id.side != s.yourSide {
      forall i | 0 <= i < |r| ensures IsSide(SideOf(r[i])) {
        if i < |team| { assert IsSide(SideOf(team[i])); }
      }
    }
  }

  lemma RequestSided(s: Battle, r: Request)
    requires Inv(s) && Sided(s) && IsSide(r.sideId)
    ensures Sided(OnRequest(s, r).state)
  {
    OthersOk(s.theirs, r.sideId);
    var kept := Others(s.theirs, r.sideId);
    forall i | 0 <= i < |kept| ensures IsSide(SideOf(kept[i])) {
      assert kept[i] in s.theirs;
    }
  }

  lemma ApplySided(s: Battle, m: Message, json: string -> Request)
    requires Inv(s) && Sided(s) && Complete(m) && NamesSide(m)
    requires m.kind == "request" && m.args[0] != "" ==> IsSide(json(m.args[0]).sideId)
    ensures Sided(Apply(s, m, json).state)
  {
    hide Route, OnRequest, Inv;
    match OpOf(m)
    case Some(op) => RouteSided(s, m.args[0], op);
    case None => if m.kind == "request" && m.args[0] != "" { RequestSided(s, json(m.args[0])); }
  }

  lemma {:induction false} RunSided(ms: seq<Message>, json: string -> Request)
    requires WellSided(ms, json)
    ensures Sided(Run(FRESH, ms, json))
  {
    if ms != [] {
      var last := |ms| - 1;
      var m, front := ms[last], ms[..last];
      assert m in ms && forall x | x in front :: x in ms;
      RunSided(front, json);
      RunInv(front, json);
      hide Apply, Inv, Sided;
      ApplySided(Run(FRESH, front, json), m, json);
    }
  }

  /** In every run from a new battle the map is there as soon as a request has named your side. */
  lemma RunReady(ms: seq<Message>, json: string -> Request)
    requires WellSided(ms, json)
    ensures var s := Run(FRESH, ms, json); s.yourSide != "" ==> Ready(s)
  {
    RunInv(ms, json);
    RunSided(ms, json);
    var s := Run(FRESH, ms, json);
    if s.yourSide != "" {
      forall i | 0 <= i < |s.theirs| ensures SideOf(s.theirs[i]) == OtherSide(s.yourSide) {
        assert IsSide(SideOf(s.theirs[i])) && SideOf(s.theirs[i]) != s.yourSide;
      }
    }
  }

  function MapRun(m: map<Key, Pokemon>, ms: seq<Message>): map<Key, Pokemon>
    requires forall msg | msg in ms :: Complete(msg)
  {
    if ms == [] then m
    else
      var last := |ms| - 1;
      assert ms[last] in ms && forall msg | msg in ms[..last] :: msg in ms;
      MapApply(MapRun(m, ms[..last]), ms[last])
  }

  /** The same over every run that follows. */
  lemma {:induction false} RunRefines(s: Battle, ms: seq<Message>, json: string -> Request)
    requires Ready(s) && forall m | m in ms :: Complete(m) && NamesSide(m)
    ensures Ready(Run(s, ms, json)) && Roster(Run(s, ms, json)) == MapRun(Roster(s), ms)
  {
    if ms != [] {
      var last := |ms| - 1;
      assert ms[last] in ms && forall m | m in ms[..last] :: m in ms;
      RunRefines(s, ms[..last], json);
      ApplyRefines(Run(s, ms[..last], json), ms[last], json);
    }
  }
}
