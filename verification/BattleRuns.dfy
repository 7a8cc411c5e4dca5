/** What every run of the battle state keeps, and what a switch and a condition mean. */
module BattleRuns {
  import opened Types
  import opened Parser
  import opened BattleState

  // ---- invariants of a team ----

  ghost predicate NamesDistinct(team: seq<Pokemon>) {
    forall i, j | 0 <= i < j < |team| :: team[i].name != team[j].name
  }

  ghost predicate OneActive(team: seq<Pokemon>) {
    forall i, j | 0 <= i < j < |team| :: !(team[i].active && team[j].active)
  }

  ghost predicate MonOk(p: Pokemon) {
    p.name == ParseIdent(p.ident).name && !(p.active && p.fainted)
  }

  ghost predicate TeamOk(team: seq<Pokemon>) {
    NamesDistinct(team) && OneActive(team) && forall i | 0 <= i < |team| :: MonOk(team[i])
  }

  ghost predicate Inv(s: Battle) { TeamOk(s.yours) && TeamOk(s.theirs) }

  /** Every Pokemon of theirs is on another side than yours, and every one of yours on yours. */
  ghost predicate Separated(s: Battle) {
    s.yourSide != "" ==>
      && (forall i | 0 <= i < |s.yours| :: SideOf(s.yours[i]) == s.yourSide)
      && (forall i | 0 <= i < |s.theirs| :: SideOf(s.theirs[i]) != s.yourSide)
  }

  /** A request lists distinct names and at most one active Pokemon. */
  ghost predicate SnapshotOk(r: Request) {
    && (forall i, j | 0 <= i < j < |r.pokemon| ::
          ParseIdent(r.pokemon[i].ident).name != ParseIdent(r.pokemon[j].ident).name)
    && (forall i, j | 0 <= i < j < |r.pokemon| :: !(r.pokemon[i].active && r.pokemon[j].active))
  }

  /** A request names a side and lists only Pokemon of it. */
  ghost predicate SnapshotSided(r: Request) {
    r.sideId != "" && forall i | 0 <= i < |r.pokemon| :: ParseIdent(r.pokemon[i].ident).side == r.sideId
  }

  lemma {:induction false} RestingOk(team: seq<Pokemon>)
    requires TeamOk(team)
    ensures TeamOk(Deactivate(team)) && forall i | 0 <= i < |team| :: !Deactivate(team)[i].active
  {
  }

  lemma UpdateOk(team: seq<Pokemon>, name: string, op: Op)
    requires TeamOk(team)
    requires op.SwitchIn? ==> forall i | 0 <= i < |team| :: !team[i].active
    ensures TeamOk(Update(team, name, op).team)
    ensures |Update(team, name, op).team| == |team|
    ensures forall i | 0 <= i < |team| :: Update(team, name, op).team[i].ident == team[i].ident
  {
    UpdateAt(team, name, op);
    var i := IndexOf(team, name);
    if i < |team| { ChangeKeeps(team[i], op); }
  }

  lemma UnseenOk(team: seq<Pokemon>, ident: string, name: string)
    requires TeamOk(team) && !Has(team, name) && name == ParseIdent(ident).name
    ensures TeamOk(team + [Unseen(ident, name)])
  {
    assert forall i | 0 <= i < |team| :: team[i] in team;
  }

  /** A message keeps a team well formed; all its identifiers survive, and only a switch adds one. */
  lemma OnTeamOk(team: seq<Pokemon>, name: string, op: Op)
    requires TeamOk(team)
    requires op.SwitchIn? ==> name == ParseIdent(op.ident).name
    ensures var r := OnTeam(team, name, op).team;
      && TeamOk(r)
      && |team| <= |r| <= |team| + 1
      && (forall i | 0 <= i < |team| :: r[i].ident == team[i].ident)
      && (|r| > |team| ==> op.SwitchIn? && r[|team|].ident == op.ident)
  {
    if op.SwitchIn? {
      var resting := Deactivate(team);
      RestingOk(team);
      if Has(resting, name) {
        UpdateOk(resting, name, op);
      } else {
        UnseenOk(resting, op.ident, name);
        UpdateOk(resting + [Unseen(op.ident, name)], name, op);
      }
    } else {
      UpdateOk(team, name, op);
    }
  }

  lemma {:induction false} OthersOk(team: seq<Pokemon>, side: string)
    requires TeamOk(team)
    ensures TeamOk(Others(team, side))
    ensures forall p | p in Others(team, side) :: p in team && SideOf(p) != side
  {
    if team != [] {
      var rest := team[1..];
      assert TeamOk(rest);
      OthersOk(rest, side);
      var kept := Others(rest, side);
      forall i | 0 <= i < |kept| ensures kept[i].name != team[0].name && !(team[0].active && kept[i].active) {
        assert kept[i] in rest;
        var j :| 0 <= j < |rest| && rest[j] == kept[i];
        assert team[0].name != team[j + 1].name;
      }
    }
  }

  lemma {:induction false} BuiltTeam(rs: seq<RequestMon>)
    ensures var t := BuildTeam(rs).team;
      && |t| <= |rs| && (BuildTeam(rs).ok ==> |t| == |rs|)
      && (forall i | 0 <= i < |t| :: t[i].ident == rs[i].ident && t[i].name == ParseIdent(rs[i].ident).name
                                      && t[i].active == rs[i].active && !t[i].fainted)
  {
    if rs != [] { BuiltTeam(rs[1..]); }
  }

  lemma TakeSidesOk(s: Battle, r: Request)
    requires Inv(s) && SnapshotOk(r)
    ensures Inv(TakeSides(s, r).state)
  {
    BuiltTeam(r.pokemon);
    OthersOk(s.theirs, r.sideId);
  }

  lemma TakeSidesSeparates(s: Battle, r: Request)
    requires Inv(s) && Separated(s) && SnapshotSided(r)
    ensures Separated(TakeSides(s, r).state)
  {
    BuiltTeam(r.pokemon);
    OthersOk(s.theirs, r.sideId);
    var kept := Others(s.theirs, r.sideId);
    assert forall i | 0 <= i < |kept| :: kept[i] in kept;
  }

  /** A completed first request leaves a well-formed state exactly when the list it carries is one. */
  lemma FirstRequestExact(s: Battle, r: Request)
    requires Inv(s) && s.yourSide == "" && BuildTeam(r.pokemon).ok
    ensures Inv(OnRequest(s, r).state) <==> SnapshotOk(r)
  {
    BuiltTeam(r.pokemon);
    OthersOk(s.theirs, r.sideId);
    var t := BuildTeam(r.pokemon).team;
    if TeamOk(t) {
      forall i, j | 0 <= i < j < |r.pokemon|
        ensures ParseIdent(r.pokemon[i].ident).name != ParseIdent(r.pokemon[j].ident).name
        ensures !(r.pokemon[i].active && r.pokemon[j].active)
      {
        assert t[i].name != t[j].name && !(t[i].active && t[j].active);
      }
    }
  }

  /** One message keeps the invariant, and the sides apart; whether or not std::stoi throws. */
  lemma ApplyInv(s: Battle, m: Message, json: string -> Request)
    requires Inv(s) && Complete(m)
    requires m.kind == "request" && m.args[0] != "" ==> SnapshotOk(json(m.args[0]))
    ensures Inv(Apply(s, m, json).state)
  {
    match OpOf(m)
    case Some(op) => OnTeamOk(TeamOf(s, ParseIdent(m.args[0]).side), ParseIdent(m.args[0]).name, op);
    case None => if m.kind == "request" && m.args[0] != "" { TakeSidesOk(s, json(m.args[0])); }
  }

  lemma RouteSeparated(s: Battle, ident: string, op: Op)
    requires Inv(s) && Separated(s) && (op.SwitchIn? ==> op.ident == ident)
    ensures Separated(Route(s, ParseIdent(ident), op).state)
  {
    var id := ParseIdent(ident);
    var team := TeamOf(s, id.side);
    var r := OnTeam(team, id.name, op).team;
    OnTeamOk(team, id.name, op);
    forall i | 0 <= i < |r| ensures SideOf(r[i]) == if i < |team| then SideOf(team[i]) else id.side {
    }
  }

  lemma ApplySeparated(s: Battle, m: Message, json: string -> Request)
    requires Inv(s) && Separated(s) && Complete(m)
    requires m.kind == "request" && m.args[0] != "" ==> SnapshotSided(json(m.args[0]))
    ensures Separated(Apply(s, m, json).state)
  {
    match OpOf(m)
    case Some(op) => RouteSeparated(s, m.args[0], op);
    case None => if m.kind == "request" && m.args[0] != "" { TakeSidesSeparates(s, json(m.args[0])); }
  }

  ghost predicate Requests(ms: seq<Message>, json: string -> Request) {
    forall m | m in ms ::
      && Complete(m)
      && (m.kind == "request" && m.args[0] != "" ==> SnapshotOk(json(m.args[0])) && SnapshotSided(json(m.args[0])))
  }

  /** In every run from a new battle: per team at most one Pokemon is active, none is active and fainted,
      names are distinct and equal the name in the identifier; and once your side is known the two teams
      hold only Pokemon of their own sides. */
  lemma {:induction false} RunInv(ms: seq<Message>, json: string -> Request)
    requires Requests(ms, json)
    ensures Inv(Run(FRESH, ms, json)) && Separated(Run(FRESH, ms, json))
  {
    if ms != [] {
      var last := |ms| - 1;
      assert ms[last] in ms && forall m | m in ms[..last] :: m in ms;
      RunInv(ms[..last], json);
      ApplyInv(Run(FRESH, ms[..last], json), ms[last], json);
      ApplySeparated(Run(FRESH, ms[..last], json), ms[last], json);
    }
  }

  // ---- what a switch and a condition mean ----

  /** After a switch the named Pokemon is on the team, is the only active one and is not fainted; it is new
      only if the name was unknown, and everyone else just rests. */
  lemma SwitchOutcome(team: seq<Pokemon>, name: string, ident: string, condition: string)
    ensures var r := OnTeam(team, name, SwitchIn(ident, condition)).team;
      var i := IndexOf(r, name);
      && i < |r| && !r[i].fainted
      && (forall j | 0 <= j < |r| :: r[j].active <==> j == i)
      && |r| == |team| + (if Has(team, name) then 0 else 1)
      && (forall j | 0 <= j < |team| && j != i :: r[j] == team[j].(active := false))
      && i == IndexOf(team, name)
  {
    hide Change, IndexOf, Update;
    var op, resting := SwitchIn(ident, condition), Deactivate(team);
    RestingFind(team, name);
    HasAt(team, name);
    HasAt(resting, name);
    var entered := if Has(resting, name) then resting else resting + [Unseen(ident, name)];
    var i := IndexOf(team, name);
    FirstIs(entered, name, i);
    OnlyActive(entered, name, op);
    assert OnTeam(team, name, op) == Update(entered, name, op);
  }

  lemma OnlyActive(entered: seq<Pokemon>, name: string, op: Op)
    requires op.SwitchIn? && IndexOf(entered, name) < |entered|
    requires forall j | 0 <= j < |entered| :: !entered[j].active
    ensures var r, i := Update(entered, name, op).team, IndexOf(entered, name);
      && |r| == |entered| && IndexOf(r, name) == i && !r[i].fainted
      && (forall j | 0 <= j < |r| :: r[j].active <==> j == i)
      && (forall j | 0 <= j < |r| && j != i :: r[j] == entered[j])
  {
    var i := IndexOf(entered, name);
    UpdateAt(entered, name, op);
    ChangeKeeps(entered[i], op);
    FirstIs(Update(entered, name, op).team, name, i);
  }

  lemma {:induction false} RestingFind(team: seq<Pokemon>, name: string)
    ensures IndexOf(Deactivate(team), name) == IndexOf(team, name)
  {
    FirstIs(Deactivate(team), name, IndexOf(team, name));
  }

  lemma FirstIs(team: seq<Pokemon>, name: string, i: nat)
    requires i <= |team| && (forall j | 0 <= j < i :: team[j].name != name)
    requires i < |team| ==> team[i].name == name
    ensures IndexOf(team, name) == i
  {
  }

  function Decimal(n: nat): (s: string)
    ensures s != "" && forall c | c in s :: IsDigit(c)
  {
    var d := [('0' as int + n % 10) as char];
    if n < 10 then d else Decimal(n / 10) + d
  }

  lemma {:induction false} ValueOfDecimal(n: nat)
    ensures Value(Decimal(n)) == n
  {
    var s := Decimal(n);
    if n >= 10 {
      assert s[..|s| - 1] == Decimal(n / 10);
      ValueOfDecimal(n / 10);
    } else {
      assert s[..0] == "" && Value(s[..0]) == 0;
    }
  }

  lemma {:induction false} DigitsOf(digits: string, rest: string)
    requires forall c | c in digits :: IsDigit(c)
    requires rest != "" ==> !IsDigit(rest[0])
    ensures Digits(digits + rest) == digits
  {
    if digits == "" {
      assert digits + rest == rest;
    } else {
      assert digits[0] in digits && forall c | c in digits[1..] :: c in digits;
      DigitsOf(digits[1..], rest);
      assert (digits + rest)[1..] == digits[1..] + rest;
    }
  }

  /** A decimal number that fits in an int is read as itself, whatever follows its last digit. */
  lemma StoiReads(n: nat, rest: string)
    requires n <= 0x7fff_ffff && (rest != "" ==> !IsDigit(rest[0]))
    ensures Stoi(Decimal(n) + rest) == Some(n)
  {
    var s := Decimal(n);
    assert s[0] in s && (s + rest)[0] == s[0];
    DigitsOf(s, rest);
    ValueOfDecimal(n);
  }

  /** A text cut at its slash: each part is read on its own. */
  lemma CutAtSlash(p: Pokemon, a: string, b: string)
    requires '/' !in a
    ensures var text := a + "/" + b;
      SetHp(p, text) ==
        (match Stoi(a)
         case None => MonResult(p, false)
         case Some(_) =>
           if Stoi(b).None? then MonResult(p.(hp := Stoi(a)), false)
           else MonResult(p.(hp := Stoi(a), hpMax := Stoi(b)), true))
  {
    var text := a + "/" + b;
    hide Stoi;
    assert Find(text, '/', 0) == |a| by {
      FindIs(text, '/', 0, |a|);
    }
    assert text[..|a|] == a && text[|a| + 1..] == b;
  }

  /** A condition such as "250/288 par" sets current and maximum hit points to the two numbers, in that
      order, and nothing else. */
  lemma ConditionReads(p: Pokemon, current: nat, max: nat, rest: string)
    requires current <= 0x7fff_ffff && max <= 0x7fff_ffff && (rest != "" ==> !IsDigit(rest[0]))
    ensures SetHp(p, Decimal(current) + "/" + Decimal(max) + rest) ==
      MonResult(p.(hp := Some(current), hpMax := Some(max)), true)
  {
    var a, b := Decimal(current), Decimal(max);
    assert '/' !in a;
    StoiReads(current, "");
    StoiReads(max, rest);
    CutAtSlash(p, a, b + rest);
    assert a + "" == a;
    hide *;
    assert (a + "/" + b) + rest == a + "/" + (b + rest);
  }
}
