/** Early logs in which the sides may share names: exactly when the first request, coming late, recovers all of
    the opponent's identifiers. */
module BattleNames {
  import opened Types
  import opened Parser
  import opened BattleReorder
  import opened BattleState

  /** The identifier a message is about, "" for none. */
  function About(m: Message): string { if m.args == [] then "" else m.args[0] }

  function Name(m: Message): string { ParseIdent(About(m)).name }

  function Side(m: Message): string { ParseIdent(About(m)).side }

  // ---- the condition, read off the log ----

  /** The first switch of its name. */
  ghost predicate FirstSwitch(log: seq<Message>, i: nat)
  {
    && i < |log| && IsSwitch(log[i])
    && forall k | 0 <= k < i && IsSwitch(log[k]) :: Name(log[k]) != Name(log[i])
  }

  /** The jth message switches in, for another side, the name that message i switched in first for this one. */
  ghost predicate Takes(log: seq<Message>, side: string, i: nat, j: nat)
  {
    && i < j < |log| && FirstSwitch(log, i) && Side(log[i]) == side
    && IsSwitch(log[j]) && Side(log[j]) != side && Name(log[j]) == Name(log[i])
  }

  /** A name first switched in by this side is later switched in by another. */
  ghost predicate Poached(log: seq<Message>, side: string)
  {
    exists i: nat, j: nat :: Takes(log, side, i, j)
  }

  // ---- both orders as lists of identifiers ----

  predicate Named(idents: seq<string>, name: string) {
    exists ident | ident in idents :: ParseIdent(ident).name == name
  }

  /** The identifiers of one team that all switches go to, or all but those of one side. */
  function Entries(log: seq<Message>, but: Option<string>): seq<string> {
    if log == [] then []
    else
      var before, m := Entries(log[..|log| - 1], but), log[|log| - 1];
      if IsSwitch(m) && but != Some(Side(m)) && !Named(before, Name(m)) then before + [About(m)] else before
  }

  function Kept(idents: seq<string>, side: string): seq<string> {
    if idents == [] then []
    else
      var last := idents[|idents| - 1];
      Kept(idents[..|idents| - 1], side) + if ParseIdent(last).side == side then [] else [last]
  }

  function Idents(team: seq<Pokemon>): (r: seq<string>)
    ensures |r| == |team| && forall i | 0 <= i < |team| :: r[i] == team[i].ident
  {
    seq(|team|, i requires 0 <= i < |team| => team[i].ident)
  }

  ghost predicate NamesRight(team: seq<Pokemon>) {
    forall i | 0 <= i < |team| :: team[i].name == ParseIdent(team[i].ident).name
  }

  lemma HasNamed(team: seq<Pokemon>, name: string)
    requires NamesRight(team)
    ensures Has(team, name) <==> Named(Idents(team), name)
  {
    var ids := Idents(team);
    HasAt(team, name);
    if Named(ids, name) {
      var ident :| ident in ids && ParseIdent(ident).name == name;
      var i :| 0 <= i < |ids| && ids[i] == ident;
      assert team[i].name == name;
    }
    var i := IndexOf(team, name);
    if i < |team| { assert ids[i] in ids; }
  }

  lemma UpdateIdents(team: seq<Pokemon>, name: string, op: Op)
    requires NamesRight(team)
    ensures var r := Update(team, name, op).team; Idents(r) == Idents(team) && NamesRight(r)
  {
    UpdateAt(team, name, op);
    var i := IndexOf(team, name);
    if i < |team| { ChangeKeeps(team[i], op); }
  }

  lemma EnteredIdents(team: seq<Pokemon>, ident: string, name: string)
    requires NamesRight(team) && name == ParseIdent(ident).name
    ensures var resting := Deactivate(team);
      var entered := if Has(resting, name) then resting else resting + [Unseen(ident, name)];
      && NamesRight(entered)
      && Idents(entered) == Idents(team) + if Named(Idents(team), name) then [] else [ident]
  {
    hide ParseIdent, Deactivate, Named, Has;
    var resting := Deactivate(team);
    assert Idents(resting) == Idents(team) && NamesRight(resting);
    HasNamed(resting, name);
    assert Idents(resting + [Unseen(ident, name)]) == Idents(resting) + [ident];
    assert Idents(team) + [] == Idents(team);
  }

  /** A message adds an identifier only when it switches in an unknown name. */
  lemma OnTeamIdents(team: seq<Pokemon>, ident: string, op: Op)
    requires NamesRight(team) && (op.SwitchIn? ==> op.ident == ident)
    ensures var r, name := OnTeam(team, ParseIdent(ident).name, op).team, ParseIdent(ident).name;
      && NamesRight(r)
      && Idents(r) == Idents(team) + if op.SwitchIn? && !Named(Idents(team), name) then [ident] else []
  {
    hide ParseIdent, Idents, NamesRight, Named, Update, Deactivate, Has;
    var name := ParseIdent(ident).name;
    if op.SwitchIn? {
      EnteredIdents(team, ident, name);
      var resting := Deactivate(team);
      UpdateIdents(if Has(resting, name) then resting else resting + [Unseen(ident, name)], name, op);
    } else {
      UpdateIdents(team, name, op);
      assert Idents(team) + [] == Idents(team);
    }
  }

  lemma {:induction false} OthersIdents(team: seq<Pokemon>, side: string)
    ensures Idents(Others(team, side)) == Kept(Idents(team), side)
  {
    if team == [] {
      assert Idents(team) == [];
    } else {
      var front, p := team[..|team| - 1], team[|team| - 1];
      OthersIdents(front, side);
      assert team == front + [p];
      OthersAppend(front, p, side);
      assert Idents(team)[..|team| - 1] == Idents(front);
      assert Idents(Others(team, side)) ==
        Idents(Others(front, side)) + if SideOf(p) == side then [] else [p.ident];
    }
  }

  /** A team that hears of all switches, or of all but one side's, holds their entries. */
  lemma ApplyIdents(s: Battle, m: Message, json: string -> Request)
    requires EarlyMessage(m) && NamesRight(s.theirs)
    ensures var t := Apply(s, m, json).state;
      && t.yourSide == s.yourSide && NamesRight(t.theirs)
      && Idents(t.theirs) == Idents(s.theirs) +
           if IsSwitch(m) && Side(m) != s.yourSide && !Named(Idents(s.theirs), Name(m)) then [About(m)] else []
  {
    if OpOf(m).Some? && Side(m) != s.yourSide { OnTeamIdents(s.theirs, m.args[0], OpOf(m).value); }
  }

  lemma {:induction false} RunIdents(s: Battle, log: seq<Message>, json: string -> Request)
    requires EarlyLog(log) && s.theirs == []
    ensures var t := Run(s, log, json);
      && t.yourSide == s.yourSide && NamesRight(t.theirs)
      && Idents(t.theirs) == Entries(log, if s.yourSide == "" then None else Some(s.yourSide))
  {
    if log == [] {
      assert Idents(s.theirs) == [];
    } else {
      var front, m := log[..|log| - 1], log[|log| - 1];
      assert m in log && forall x | x in front :: x in log;
      RunIdents(s, front, json);
      ApplyIdents(Run(s, front, json), m, json);
    }
  }

  // ---- when they agree ----

  lemma NamedMore(idents: seq<string>, more: string, name: string)
    ensures Named(idents + [more], name) <==> Named(idents, name) || ParseIdent(more).name == name
  {
    hide ParseIdent;
    assert forall x | x in idents :: x in idents + [more];
    assert more in idents + [more];
  }

  lemma KeptMore(idents: seq<string>, more: string, side: string)
    ensures Kept(idents + [more], side) == Kept(idents, side) + if ParseIdent(more).side == side then [] else [more]
  {
    hide ParseIdent;
    assert (idents + [more])[..|idents|] == idents;
  }

  lemma {:induction false} KeptNamed(idents: seq<string>, side: string, name: string)
    ensures Named(Kept(idents, side), name) ==> Named(idents, name)
  {
    hide ParseIdent;
    if idents != [] {
      var front, last := idents[..|idents| - 1], idents[|idents| - 1];
      assert idents == front + [last];
      KeptNamed(front, side, name);
      KeptMore(front, last, side);
      NamedMore(front, last, name);
      NamedMore(Kept(front, side), last, name);
    }
  }

  /** The name is in the list for this side. */
  ghost predicate OwnedBy(idents: seq<string>, name: string, side: string) {
    Named(idents, name) && !Named(Kept(idents, side), name)
  }

  lemma EntriesNext(front: seq<Message>, m: Message, but: Option<string>)
    ensures var before := Entries(front, but);
      Entries(front + [m], but) ==
        if IsSwitch(m) && but != Some(Side(m)) && !Named(before, Name(m)) then before + [About(m)] else before
  {
    assert (front + [m])[..|front|] == front;
  }

  /** The mixed list names what has been switched in, each once, and gives a name to whom switched it in
      first. */
  lemma {:induction false} EntriesName(log: seq<Message>, side: string, name: string)
    ensures var all := Entries(log, None);
      && (Named(all, name) <==> exists i: nat :: FirstSwitch(log, i) && Name(log[i]) == name)
      && (OwnedBy(all, name, side) <==>
            exists i: nat :: FirstSwitch(log, i) && Name(log[i]) == name && Side(log[i]) == side)
  {
    hide ParseIdent, IsSwitch;
    if log != [] {
      var front, m := log[..|log| - 1], log[|log| - 1];
      assert log == front + [m];
      EntriesName(front, side, name);
      EntriesName(front, side, Name(m));
      FirstsNext(front, m, log);
      EntriesNext(front, m, None);
      OwnedMore(Entries(front, None), About(m), side, name);
      hide Entries, FirstSwitch, OwnedBy, Named;
      assert forall i: nat | i < |front| :: log[i] == front[i];
    }
  }

  lemma OwnedMore(all: seq<string>, ident: string, side: string, name: string)
    ensures var id := ParseIdent(ident);
      && (Named(all + [ident], name) <==> Named(all, name) || id.name == name)
      && (!Named(all, id.name) ==>
            (OwnedBy(all + [ident], name, side) <==> OwnedBy(all, name, side) || (id.name == name && id.side == side)))
  {
    hide ParseIdent;
    NamedMore(all, ident, name);
    KeptMore(all, ident, side);
    NamedMore(Kept(all, side), ident, name);
    KeptNamed(all, side, name);
    hide Named, Kept;
    assert Kept(all, side) + [] == Kept(all, side);
  }

  lemma FirstsNext(front: seq<Message>, m: Message, log: seq<Message>)
    requires log == front + [m]
    ensures forall i: nat | i < |front| :: FirstSwitch(log, i) <==> FirstSwitch(front, i)
    ensures FirstSwitch(log, |front|) <==>
      IsSwitch(m) && !exists i: nat :: FirstSwitch(front, i) && Name(front[i]) == Name(m)
  {
    hide ParseIdent;
    hide IsSwitch, Name;
    assert log[|front|] == m;
    forall i: nat | i < |front| ensures FirstSwitch(log, i) <==> FirstSwitch(front, i) {
      assert forall k | 0 <= k <= i :: log[k] == front[k];
    }
    if IsSwitch(m) && !FirstSwitch(log, |front|) {
      var k: nat :| k < |front| && IsSwitch(log[k]) && Name(log[k]) == Name(m);
      var i := Earliest(front, k);
    }
  }

  lemma {:induction false} Earliest(log: seq<Message>, k: nat) returns (i: nat)
    requires k < |log| && IsSwitch(log[k])
    ensures FirstSwitch(log, i) && Name(log[i]) == Name(log[k])
  {
    hide ParseIdent;
    i := k;
    if !FirstSwitch(log, k) {
      var h: nat :| h < k && IsSwitch(log[h]) && Name(log[h]) == Name(log[k]);
      i := Earliest(log, h);
    }
  }

  /** One more message takes a name exactly when it switches in, for another side, a name this side owns. */
  lemma PoachedNext(front: seq<Message>, m: Message, log: seq<Message>, side: string)
    requires log == front + [m]
    ensures Poached(log, side) <==>
      Poached(front, side) || (IsSwitch(m) && Side(m) != side && OwnedBy(Entries(front, None), Name(m), side))
  {
    FirstsNext(front, m, log);
    hide ParseIdent, OwnedBy, Entries;
    forall i: nat, j: nat | j < |front| ensures Takes(log, side, i, j) <==> Takes(front, side, i, j) {
    }
    if IsSwitch(m) {
      EntriesName(front, side, Name(m));
      forall i: nat ensures Takes(log, side, i, |front|) <==>
        Side(m) != side && FirstSwitch(front, i) && Name(front[i]) == Name(m) && Side(front[i]) == side
      {
        if i < |front| { assert log[i] == front[i]; }
      }
    }
    assert !IsSwitch(m) ==> forall i: nat :: !Takes(log, side, i, |front|);
  }

  /** What the cleaned mixed list and the list of the others' switches have in common. */
  ghost predicate Comparable(all: seq<string>, late: seq<string>, early: seq<string>, poached: bool) {
    && (forall name :: Named(early, name) ==> Named(all, name))
    && (forall name :: Named(late, name) ==> Named(early, name))
    && (!poached ==> late == early)
    && (poached ==> exists name :: Named(early, name) && !Named(late, name))
  }

  /** A switch by another side. */
  lemma CompareOther(all: seq<string>, side: string, early: seq<string>, poached: bool, ident: string)
    requires Comparable(all, Kept(all, side), early, poached) && ParseIdent(ident).side != side
    ensures var name := ParseIdent(ident).name;
      var all' := if Named(all, name) then all else all + [ident];
      var early' := if Named(early, name) then early else early + [ident];
      Comparable(all', Kept(all', side), early', poached || OwnedBy(all, name, side))
  {
    hide ParseIdent;
    var name, late := ParseIdent(ident).name, Kept(all, side);
    forall n ensures (Named(all + [ident], n) <==> Named(all, n) || n == name)
                  && (Named(late + [ident], n) <==> Named(late, n) || n == name)
                  && (Named(early + [ident], n) <==> Named(early, n) || n == name)
    {
      NamedMore(all, ident, n);
      NamedMore(late, ident, n);
      NamedMore(early, ident, n);
    }
    KeptMore(all, ident, side);
    KeptNamed(all, side, name);
  }

  /** A switch by this side. */
  lemma CompareOwn(all: seq<string>, side: string, early: seq<string>, poached: bool, ident: string)
    requires Comparable(all, Kept(all, side), early, poached) && ParseIdent(ident).side == side
    ensures var all' := if Named(all, ParseIdent(ident).name) then all else all + [ident];
      Comparable(all', Kept(all', side), early, poached)
  {
    hide ParseIdent;
    forall n ensures Named(all, n) ==> Named(all + [ident], n) {
      NamedMore(all, ident, n);
    }
    KeptMore(all, ident, side);
    assert Kept(all, side) + [] == Kept(all, side);
  }

  lemma {:induction false} ListsCompare(log: seq<Message>, side: string)
    ensures var all := Entries(log, None);
      Comparable(all, Kept(all, side), Entries(log, Some(side)), Poached(log, side))
  {
    if log != [] {
      var front, m := log[..|log| - 1], log[|log| - 1];
      assert log == front + [m];
      PoachedNext(front, m, log, side);
      ListsCompare(front, side);
      EntriesNext(front, m, None);
      EntriesNext(front, m, Some(side));
      hide ParseIdent, Comparable, Poached, OwnedBy, Entries, Named, Kept;
      var all, early, poached := Entries(front, None), Entries(front, Some(side)), Poached(front, side);
      if IsSwitch(m) {
        if Side(m) == side {
          CompareOwn(all, side, early, poached, About(m));
        } else {
          CompareOther(all, side, early, poached, About(m));
        }
      }
    }
  }

  /** Both orders, for every log and request, names shared or not: the opponent's identifiers are the same, in
      order, if and only if no name first switched in by your side is later switched in by another side. */
  lemma IdentifiersExact(log: seq<Message>, request: Message, json: string -> Request)
    requires EarlyLog(log) && IsRequest(request, json)
    ensures forall m | m in log + [request] || m in [request] + log :: Complete(m)
    ensures var late, early := Run(FRESH, log + [request], json), Run(FRESH, [request] + log, json);
      Idents(late.theirs) == Idents(early.theirs) <==> !Poached(log, json(request.args[0]).sideId)
  {
    var side := json(request.args[0]).sideId;
    BothLists(log, request, json);
    ListsCompare(log, side);
  }

  lemma BothLists(log: seq<Message>, request: Message, json: string -> Request)
    requires EarlyLog(log) && IsRequest(request, json)
    ensures forall m | m in log + [request] || m in [request] + log :: Complete(m)
    ensures var side := json(request.args[0]).sideId;
      && Idents(Run(FRESH, log + [request], json).theirs) == Kept(Entries(log, None), side)
      && Idents(Run(FRESH, [request] + log, json).theirs) == Entries(log, Some(side))
  {
    var r := json(request.args[0]);
    BothOrders(log, request, json);
    RunIdents(FRESH, log, json);
    OthersIdents(Run(FRESH, log, json).theirs, r.sideId);
    assert OnRequest(FRESH, r).state.theirs == [];
    RunIdents(OnRequest(FRESH, r).state, log, json);
  }

  // ---- an instance ----

  /** Two switches in of one name, by your side and then by the other, and a first request. */
  predicate SharedLeads(mine: Message, theirs: Message, request: Message, json: string -> Request) {
    && Complete(mine) && Complete(theirs) && IsSwitch(mine) && IsSwitch(theirs) && IsRequest(request, json)
    && Name(mine) == Name(theirs) && Side(mine) == json(request.args[0]).sideId
    && Side(theirs) != "" && Side(theirs) != Side(mine)
  }

  /** When the two leads have one name, the name is poached, and of the early log nothing of the opponent's is
      left. */
  lemma SharedNameIsLost(mine: Message, theirs: Message, request: Message, json: string -> Request)
    requires SharedLeads(mine, theirs, request, json)
    ensures EarlyLog([mine, theirs]) && Poached([mine, theirs], json(request.args[0]).sideId)
    ensures Complete(request)
    ensures Run(FRESH, [mine, theirs, request], json).theirs == []
    ensures |Run(FRESH, [request, mine, theirs], json).theirs| == 1
  {
    hide Run, ParseIdent;
    var log, side := [mine, theirs], json(request.args[0]).sideId;
    assert Takes(log, side, 0, 1);
    BothLists(log, request, json);
    assert log + [request] == [mine, theirs, request] && [request] + log == [request, mine, theirs];
    LeadLists(mine, theirs, side);
  }

  lemma LeadLists(mine: Message, theirs: Message, side: string)
    requires IsSwitch(mine) && IsSwitch(theirs) && Name(mine) == Name(theirs)
    requires Side(mine) == side && Side(theirs) != side
    ensures Kept(Entries([mine, theirs], None), side) == [] && |Entries([mine, theirs], Some(side))| == 1
  {
    hide ParseIdent;
    assert [mine, theirs][..1] == [mine] && [mine][..0] == [];
    assert Entries([mine], None) == [About(mine)] && Entries([mine], Some(side)) == [];
    assert About(mine) in [About(mine)];
    assert Entries([mine, theirs], None) == [About(mine)];
    assert [About(mine)][..0] == [];
  }

  lemma Mews()
    ensures ParseIdent("p1a: Mew") == Ident('a', "p1", "Mew") && ParseIdent("p2a: Mew") == Ident('a', "p2", "Mew")
  {
    FindIs("p1a: Mew", ':', 0, 3);
    FindIs("p2a: Mew", ':', 0, 3);
    assert "p1a: Mew"[5..] == "Mew" && "p2a: Mew"[5..] == "Mew";
  }

  /** Such a log exists. */
  lemma SharedNameExample(json: string -> Request)
    requires json("{}").sideId == "p1"
    ensures Run(FRESH, [Message("", "switch", ["p1a: Mew", "Mew", "100/100"]),
                        Message("", "switch", ["p2a: Mew", "Mew", "100/100"]),
                        Message("", "request", ["{}"])], json).theirs == []
  {
    hide ParseIdent, Run, Apply;
    var mine, theirs := Message("", "switch", ["p1a: Mew", "Mew", "100/100"]),
      Message("", "switch", ["p2a: Mew", "Mew", "100/100"]);
    Mews();
    assert mine.args[0] == "p1a: Mew" && theirs.args[0] == "p2a: Mew";
    SharedNameIsLost(mine, theirs, Message("", "request", ["{}"]), json);
  }
}
