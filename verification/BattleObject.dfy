/** The BattleState object of src/protocol/battlestate.cpp: vectors of Pokemon searched by loops and changed
    in place, each handler proved against the fold it implements. */
module BattleObject {
  import opened Types
  import opened Parser
  import opened BattleState

  /** A rested team with the named Pokemon in it. */
  function Entered(team: seq<Pokemon>, text: string, name: string): seq<Pokemon> {
    var resting := Deactivate(team);
    if Has(resting, name) then resting else resting + [Unseen(text, name)]
  }

  class BattleTracker {
    const json: string -> Request
    var forceSwitch: Option<bool>
    var turn: Option<int>
    var yourName: string
    var yourSide: string
    var yourTeam: seq<Pokemon>
    var opponentTeam: seq<Pokemon>
    var availableMoves: seq<MoveOption>

    function View(): Battle
      reads this
    {
      Battle(forceSwitch, turn, yourName, yourSide, yourTeam, opponentTeam, availableMoves)
    }

    constructor (json: string -> Request)
      ensures this.json == json && View() == FRESH
    {
      this.json := json;
      forceSwitch, turn, yourName, yourSide := None, None, "", "";
      yourTeam, opponentTeam, availableMoves := [], [], [];
    }

    /** The first active Pokemon of yours, or the first of all if none is active. */
    method ActivePokemon() returns (p: Pokemon)
      requires yourTeam != []
      ensures exists i | 0 <= i < |yourTeam| ::
        p == yourTeam[i] && (p.active || i == 0) && (forall j | 0 <= j < i :: !yourTeam[j].active)
      ensures !p.active ==> forall j | 0 <= j < |yourTeam| :: !yourTeam[j].active
    {
      for i := 0 to |yourTeam|
        invariant forall j | 0 <= j < i :: !yourTeam[j].active
      {
        if yourTeam[i].active {
          return yourTeam[i];
        }
      }
      return yourTeam[0];
    }

    method FindPokemon(ident: Ident) returns (at: nat)
      ensures at == IndexOf(TeamOf(View(), ident.side), ident.name)
    {
      var team := if ident.side == yourSide then yourTeam else opponentTeam;
      at := 0;
      while at < |team|
        invariant at <= |team|
        invariant IndexOf(team, ident.name) == at + IndexOf(team[at..], ident.name)
      {
        if team[at].name == ident.name {
          return;
        }
        assert team[at..][1..] == team[at + 1..];
        at := at + 1;
      }
    }

    method Store(side: string, at: nat, p: Pokemon)
      requires at < |TeamOf(View(), side)|
      modifies this`yourTeam, this`opponentTeam
      ensures View() == WithTeam(old(View()), side, TeamOf(old(View()), side)[at := p])
    {
      if side == yourSide {
        yourTeam := yourTeam[at := p];
      } else {
        opponentTeam := opponentTeam[at := p];
      }
    }

    /** The hit points of a condition, stored one after the other; false when std::stoi throws. */
    method StoreHp(side: string, at: nat, condition: string) returns (ok: bool)
      requires at < |TeamOf(View(), side)|
      modifies this`yourTeam, this`opponentTeam
      ensures var r := SetHp(TeamOf(old(View()), side)[at], condition);
        ok == r.ok && View() == WithTeam(old(View()), side, TeamOf(old(View()), side)[at := r.mon])
    {
      var p := TeamOf(View(), side)[at];
      var slash := Find(condition, '/', 0);
      ok := true;
      if slash != |condition| {
        var current := Stoi(condition[..slash]);
        if current.None? {
          ok := false;
        } else {
          p := p.(hp := current);
          var max := Stoi(condition[slash + 1..]);
          if max.None? {
            ok := false;
          } else {
            p := p.(hpMax := max);
          }
        }
      }
      Store(side, at, p);
    }

    method ApplyHp(msg: Message) returns (ok: bool)
      requires |msg.args| >= 1
      modifies this
      ensures Outcome(View(), ok) == Route(old(View()), ParseIdent(msg.args[0]), Hp(HpCondition(msg)))
    {
      var ident := ParseIdent(msg.args[0]);
      var team := TeamOf(View(), ident.side);
      var at := FindPokemon(ident);
      UpdateAt(team, ident.name, Hp(HpCondition(msg)));
      ok := true;
      if at < |team| {
        if |msg.args| < 2 {
          assert team[at := team[at]] == team;
          return false;
        }
        ok := StoreHp(ident.side, at, msg.args[1]);
      }
    }

    method ApplyFaint(msg: Message)
      requires |msg.args| >= 1
      modifies this
      ensures Outcome(View(), true) == Route(old(View()), ParseIdent(msg.args[0]), Faint)
    {
      var ident := ParseIdent(msg.args[0]);
      var team := TeamOf(View(), ident.side);
      var at := FindPokemon(ident);
      UpdateAt(team, ident.name, Faint);
      if at < |team| {
        Store(ident.side, at, team[at].(fainted := true, active := false, hp := Some(0)));
      }
    }

    /** The loop that takes every active flag of a team away. */
    method Rest(side: string)
      modifies this`yourTeam, this`opponentTeam
      ensures View() == WithTeam(old(View()), side, Deactivate(TeamOf(old(View()), side)))
    {
      var team := TeamOf(View(), side);
      var was := team;
      for i := 0 to |team|
        invariant |team| == |was|
        invariant forall j | 0 <= j < |team| :: team[j] == if j < i then was[j].(active := false) else was[j]
      {
        team := team[i := team[i].(active := false)];
      }
      assert team == Deactivate(was);
      if side == yourSide { yourTeam := team; } else { opponentTeam := team; }
    }

    /** The first half of a switch: rest the team, then find the Pokemon or add it. */
    method Enter(text: string, ident: Ident) returns (at: nat)
      modifies this`yourTeam, this`opponentTeam
      ensures var entered := Entered(TeamOf(old(View()), ident.side), text, ident.name);
        && View() == WithTeam(old(View()), ident.side, entered)
        && at == IndexOf(entered, ident.name) < |entered|
    {
      Rest(ident.side);
      at := FindPokemon(ident);
      ghost var resting := TeamOf(View(), ident.side);
      HasAt(resting, ident.name);
      IndexAppended(resting, text, ident.name);
      if ident.side == yourSide {
        if at == |yourTeam| { yourTeam := yourTeam + [Unseen(text, ident.name)]; }
      } else {
        if at == |opponentTeam| { opponentTeam := opponentTeam + [Unseen(text, ident.name)]; }
      }
    }

    method ApplySwitch(msg: Message) returns (ok: bool)
      requires |msg.args| >= 3
      modifies this
      ensures Outcome(View(), ok) == Route(old(View()), ParseIdent(msg.args[0]), SwitchIn(msg.args[0], msg.args[2]))
    {
      hide SetHp, ParseIdent, Update, Has, Deactivate;
      var ident := ParseIdent(msg.args[0]);
      var at := Enter(msg.args[0], ident);
      var team := TeamOf(View(), ident.side);
      UpdateAt(team, ident.name, SwitchIn(msg.args[0], msg.args[2]));
      var p := team[at].(active := true, fainted := false);
      Store(ident.side, at, p);
      ok := StoreHp(ident.side, at, msg.args[2]);
      ghost var q := SetHp(p, msg.args[2]).mon;
      assert team[at := p][at := q] == team[at := q];
    }

    /** The erase-remove of the first request. */
    method EraseOwn()
      modifies this`opponentTeam
      ensures opponentTeam == Others(old(opponentTeam), yourSide)
    {
      var kept := [];
      for i := 0 to |opponentTeam|
        invariant opponentTeam == old(opponentTeam)
        invariant kept + Others(opponentTeam[i..], yourSide) == Others(opponentTeam, yourSide)
      {
        assert opponentTeam[i..][1..] == opponentTeam[i + 1..];
        if ParseIdent(opponentTeam[i].ident).side != yourSide {
          kept := kept + [opponentTeam[i]];
        }
      }
      opponentTeam := kept;
    }

    method TakeYourTeam(entries: seq<RequestMon>) returns (ok: bool)
      requires yourTeam == []
      modifies this`yourTeam
      ensures TeamResult(yourTeam, ok) == BuildTeam(entries)
    {
      ghost var all, rest := BuildTeam(entries), BuildTeam(entries);
      assert entries[0..] == entries;
      for i := 0 to |entries|
        invariant rest == BuildTeam(entries[i..])
        invariant all == TeamResult(yourTeam + rest.team, rest.ok)
      {
        ghost var left := entries[i..];
        assert left[0] == entries[i] && left[1..] == entries[i + 1..];
        var r := FromRequest(entries[i]);
        if !r.ok {
          return false;
        }
        ghost var after := BuildTeam(entries[i + 1..]);
        assert rest == TeamResult([r.mon] + after.team, after.ok);
        assert yourTeam + ([r.mon] + after.team) == yourTeam + [r.mon] + after.team;
        yourTeam := yourTeam + [r.mon];
        rest := after;
      }
      return true;
    }

    method ApplyRequest(msg: Message) returns (ok: bool)
      requires |msg.args| >= 1
      modifies this
      ensures Outcome(View(), ok) ==
        if msg.args[0] == "" then Outcome(old(View()), true) else OnRequest(old(View()), json(msg.args[0]))
    {
      hide BuildTeam, Others, SetHp;
      if msg.args[0] == "" {
        return true;
      }
      var j := json(msg.args[0]);
      if yourSide == "" {
        yourTeam := [];
        yourName := j.sideName;
        yourSide := j.sideId;
        EraseOwn();
        ok := TakeYourTeam(j.pokemon);
        if !ok {
          return;
        }
      }
      availableMoves := [];
      forceSwitch := Some(j.forceSwitch);
      if j.active.Some? {
        var ms := j.active.value;
        for i := 0 to |ms|
          modifies this`availableMoves
          invariant availableMoves == ms[..i]
        {
          availableMoves := availableMoves + [ms[i]];
        }
        assert ms[..|ms|] == ms;
      }
      return true;
    }

    /** The dispatch on the message type; false when an exception escapes. */
    method Apply(msg: Message) returns (ok: bool)
      requires Complete(msg)
      modifies this
      ensures Outcome(View(), ok) == BattleState.Apply(old(View()), msg, json)
    {
      ok := true;
      if msg.kind == "request" {
        ok := ApplyRequest(msg);
      } else if msg.kind == "-damage" || msg.kind == "-heal" {
        ok := ApplyHp(msg);
      } else if msg.kind == "faint" {
        ApplyFaint(msg);
      } else if msg.kind == "switch" || msg.kind == "drag" {
        ok := ApplySwitch(msg);
      } else if msg.kind == "turn" {
        var n := Stoi(msg.args[0]);
        if n.None? {
          return false;
        }
        turn := n;
      }
    }
  }

  lemma {:induction false} IndexAppended(team: seq<Pokemon>, ident: string, name: string)
    ensures IndexOf(team + [Unseen(ident, name)], name) == IndexOf(team, name)
  {
    if team != [] && team[0].name != name {
      assert (team + [Unseen(ident, name)])[1..] == team[1..] + [Unseen(ident, name)];
      IndexAppended(team[1..], ident, name);
    }
  }
}
