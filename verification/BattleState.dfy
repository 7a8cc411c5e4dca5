/** src/protocol/battlestate.cpp: two teams folded from server messages. Fields the code leaves
    uninitialised are None until first written; an exception thrown by std::stoi escapes with the state
    as it then is, shown as ok == false, and so does a condition read past the end of the arguments. */
module BattleState {
  import opened Types
  import opened Parser

  datatype Pokemon = Pokemon(name: string, ident: string, hp: Option<int>, hpMax: Option<int>, active: bool,
                             fainted: bool, moves: seq<string>, tera: string)

  datatype MoveOption = MoveOption(name: string, id: string, pp: int, maxPp: int, disabled: bool)

  datatype Battle = Battle(forceSwitch: Option<bool>, turn: Option<int>, yourName: string, yourSide: string,
                           yours: seq<Pokemon>, theirs: seq<Pokemon>, moves: seq<MoveOption>)

  /** A decoded request: the JSON document after its text has been parsed. */
  datatype RequestMon = RequestMon(ident: string, active: bool, tera: string, condition: string, moves: seq<string>)
  datatype Request = Request(sideName: string, sideId: string, pokemon: seq<RequestMon>, forceSwitch: bool,
                             active: Option<seq<MoveOption>>)

  const FRESH := Battle(None, None, "", "", [], [], [])

  // ---- std::stoi ----

  predicate IsBlank(c: char) { c == ' ' || '\t' <= c <= '\r' }
  predicate IsDigit(c: char) { '0' <= c <= '9' }

  function SkipBlank(s: string): string {
    if s != "" && IsBlank(s[0]) then SkipBlank(s[1..]) else s
  }

  function Digits(s: string): string {
    if s != "" && IsDigit(s[0]) then [s[0]] + Digits(s[1..]) else ""
  }

  function Value(digits: string): nat
    requires forall c | c in digits :: IsDigit(c)
  {
    if digits == "" then 0
    else
      var last := digits[|digits| - 1];
      assert last in digits && IsDigit(last);
      Value(digits[..|digits| - 1]) * 10 + (last as int - '0' as int)
  }

  lemma {:induction false} DigitsAre(s: string)
    ensures forall c | c in Digits(s) :: IsDigit(c)
  {
    if s != "" && IsDigit(s[0]) { DigitsAre(s[1..]); }
  }

  /** None when std::stoi throws: no digits, or a value no 32-bit int holds. */
  function Stoi(text: string): Option<int> {
    var s := SkipBlank(text);
    var signed := s != "" && (s[0] == '-' || s[0] == '+');
    var digits := Digits(if signed then s[1..] else s);
    DigitsAre(if signed then s[1..] else s);
    var v := if signed && s[0] == '-' then -(Value(digits) as int) else Value(digits);
    if digits == "" || v < -0x8000_0000 || v > 0x7fff_ffff then None else Some(v)
  }

  // ---- one Pokemon, one team ----

  datatype MonResult = MonResult(mon: Pokemon, ok: bool)
  datatype TeamResult = TeamResult(team: seq<Pokemon>, ok: bool)
  datatype Outcome = Outcome(state: Battle, ok: bool)

  /** Both numbers of "250/288" are stored, left one first; a condition without '/' changes nothing. */
  function SetHp(p: Pokemon, condition: string): MonResult {
    var slash := Find(condition, '/', 0);
    if slash == |condition| then MonResult(p, true)
    else
      var current, max := Stoi(condition[..slash]), Stoi(condition[slash + 1..]);
      if current.None? then MonResult(p, false)
      else if max.None? then MonResult(p.(hp := current), false)
      else MonResult(p.(hp := current, hpMax := max), true)
  }

  /** What a message does to the Pokemon it names. */
  datatype Op = SwitchIn(ident: string, condition: string) | Hp(given: Option<string>) | Faint

  function Change(p: Pokemon, op: Op): MonResult {
    match op
    case SwitchIn(_, condition) => SetHp(p.(active := true, fainted := false), condition)
    case Hp(None) => MonResult(p, false)
    case Hp(Some(condition)) => SetHp(p, condition)
    case Faint => MonResult(p.(fainted := true, active := false, hp := Some(0)), true)
  }

  /** The position of the first Pokemon of that name, |team| if there is none. */
  function IndexOf(team: seq<Pokemon>, name: string): (i: nat)
    ensures i <= |team|
    ensures forall j | 0 <= j < i :: team[j].name != name
    ensures i < |team| ==> team[i].name == name
  {
    if team == [] || team[0].name == name then 0 else 1 + IndexOf(team[1..], name)
  }

  predicate Has(team: seq<Pokemon>, name: string) { exists p | p in team :: p.name == name }

  /** The first Pokemon of that name, changed. */
  function Update(team: seq<Pokemon>, name: string, op: Op): TeamResult {
    if team == [] then TeamResult([], true)
    else if team[0].name == name then
      var r := Change(team[0], op);
      TeamResult([r.mon] + team[1..], r.ok)
    else
      var r := Update(team[1..], name, op);
      TeamResult([team[0]] + r.team, r.ok)
  }

  function Deactivate(team: seq<Pokemon>): (r: seq<Pokemon>)
    ensures |r| == |team|
    ensures forall i | 0 <= i < |team| :: r[i] == team[i].(active := false)
  {
    if team == [] then [] else [team[0].(active := false)] + Deactivate(team[1..])
  }

  /** A Pokemon first heard of when it is switched in. */
  function Unseen(ident: string, name: string): Pokemon {
    Pokemon(name, ident, None, None, false, false, [], "")
  }

  function OnTeam(team: seq<Pokemon>, name: string, op: Op): TeamResult {
    match op
    case SwitchIn(ident, _) =>
      var resting := Deactivate(team);
      Update(if Has(resting, name) then resting else resting + [Unseen(ident, name)], name, op)
    case _ => Update(team, name, op)
  }

  // ---- messages ----

  /** The arguments the code reads whatever the state are there. */
  predicate Complete(m: Message) {
    |m.args| >=
      if m.kind == "switch" || m.kind == "drag" then 3
      else if m.kind == "-damage" || m.kind == "-heal" || m.kind == "faint" || m.kind == "request" || m.kind == "turn"
      then 1
      else 0
  }

  /** The condition of a damage or heal message, read only once the Pokemon is found. */
  function HpCondition(m: Message): Option<string> { if |m.args| >= 2 then Some(m.args[1]) else None }

  /** The operation of a message about one Pokemon; its identifier is the first argument. */
  function OpOf(m: Message): Option<Op>
    requires Complete(m)
  {
    if m.kind == "-damage" || m.kind == "-heal" then Some(Hp(HpCondition(m)))
    else if m.kind == "faint" then Some(Faint)
    else if m.kind == "switch" || m.kind == "drag" then Some(SwitchIn(m.args[0], m.args[2]))
    else None
  }

  function TeamOf(s: Battle, side: string): seq<Pokemon> { if side == s.yourSide then s.yours else s.theirs }

  function WithTeam(s: Battle, side: string, team: seq<Pokemon>): Battle {
    if side == s.yourSide then s.(yours := team) else s.(theirs := team)
  }

  function Route(s: Battle, ident: Ident, op: Op): Outcome {
    var r := OnTeam(TeamOf(s, ident.side), ident.name, op);
    Outcome(WithTeam(s, ident.side, r.team), r.ok)
  }

  function FromRequest(r: RequestMon): MonResult {
    SetHp(Pokemon(ParseIdent(r.ident).name, r.ident, None, None, r.active, false, r.moves, r.tera), r.condition)
  }

  /** The team a request lists, up to the first condition that throws. */
  function BuildTeam(rs: seq<RequestMon>): TeamResult {
    if rs == [] then TeamResult([], true)
    else
      var first := FromRequest(rs[0]);
      if !first.ok then TeamResult([], false)
      else
        var rest := BuildTeam(rs[1..]);
        TeamResult([first.mon] + rest.team, rest.ok)
  }

  function SideOf(p: Pokemon): string { ParseIdent(p.ident).side }

  /** The Pokemon that do not belong to a side. */
  function Others(team: seq<Pokemon>, side: string): seq<Pokemon> {
    if team == [] then []
    else if SideOf(team[0]) == side then Others(team[1..], side)
    else [team[0]] + Others(team[1..], side)
  }

  /** The first request fixes the sides. */
  function TakeSides(s: Battle, r: Request): Outcome {
    if s.yourSide != "" then Outcome(s, true)
    else
      var built := BuildTeam(r.pokemon);
      Outcome(s.(yours := built.team, yourName := r.sideName, yourSide := r.sideId,
                 theirs := Others(s.theirs, r.sideId)), built.ok)
  }

  function OnRequest(s: Battle, r: Request): Outcome {
    var sides := TakeSides(s, r);
    if !sides.ok then sides
    else
      Outcome(sides.state.(forceSwitch := Some(r.forceSwitch),
                           moves := match r.active case None => [] case Some(ms) => ms), true)
  }

  /** `json` decodes the text of a request. */
  function Apply(s: Battle, m: Message, json: string -> Request): Outcome
    requires Complete(m)
  {
    match OpOf(m)
    case Some(op) => Route(s, ParseIdent(m.args[0]), op)
    case None =>
      if m.kind == "request" then
        if m.args[0] == "" then Outcome(s, true) else OnRequest(s, json(m.args[0]))
      else if m.kind == "turn" then
        match Stoi(m.args[0])
        case None => Outcome(s, false)
        case Some(n) => Outcome(s.(turn := Some(n)), true)
      else Outcome(s, true)
  }

  /** The state after some messages; the prefix up to a throwing one is a run of its own. */
  function Run(s: Battle, ms: seq<Message>, json: string -> Request): Battle
    requires forall m | m in ms :: Complete(m)
  {
    if ms == [] then s
    else
      var last := |ms| - 1;
      assert ms[last] in ms && forall m | m in ms[..last] :: m in ms;
      Apply(Run(s, ms[..last], json), ms[last], json).state
  }

  function FindPokemon(s: Battle, ident: Ident): Option<Pokemon> {
    FindIn(TeamOf(s, ident.side), ident.name)
  }

  function FindIn(team: seq<Pokemon>, name: string): (r: Option<Pokemon>)
    ensures r.None? <==> !Has(team, name)
    ensures r.Some? ==> r.value in team && r.value.name == name
  {
    if team == [] then None
    else if team[0].name == name then Some(team[0])
    else
      assert forall p | p in team :: p == team[0] || p in team[1..];
      FindIn(team[1..], name)
  }

  lemma {:induction false} HasAt(team: seq<Pokemon>, name: string)
    ensures Has(team, name) <==> IndexOf(team, name) < |team|
  {
    var i := IndexOf(team, name);
    if i < |team| {
      assert team[i] in team;
    } else {
      assert forall p | p in team :: exists j :: 0 <= j < |team| && team[j] == p;
    }
  }

  /** The recursive update changes the first match in place. */
  lemma {:induction false} UpdateAt(team: seq<Pokemon>, name: string, op: Op)
    ensures var i := IndexOf(team, name);
      Update(team, name, op) ==
        if i == |team| then TeamResult(team, true)
        else TeamResult(team[i := Change(team[i], op).mon], Change(team[i], op).ok)
  {
    if team != [] {
      var rest := team[1..];
      assert team == [team[0]] + rest;
      if team[0].name != name {
        UpdateAt(rest, name, op);
        var i := IndexOf(rest, name);
        if i < |rest| {
          var p := Change(rest[i], op).mon;
          assert [team[0]] + rest[i := p] == team[1 + i := p];
        }
      } else {
        assert [Change(team[0], op).mon] + rest == team[0 := Change(team[0], op).mon];
      }
    }
  }

  /** A change leaves name and identifier alone, and never leaves a Pokemon both active and fainted that
      was not so before. */
  lemma ChangeKeeps(p: Pokemon, op: Op)
    ensures var q := Change(p, op).mon;
      && q.name == p.name && q.ident == p.ident
      && q.active == (if op.SwitchIn? then true else if op.Faint? then false else p.active)
      && q.fainted == (if op.SwitchIn? then false else if op.Faint? then true else p.fainted)
  {
  }
}
