/** What typed lines come to at a login prompt and at a battle of src/app/psapp.h. */
module Commands {
  import opened Types
  import opened Parser
  import opened EventLoop
  import opened BattleState
  import C = PsClient

  /** A word of a line is a name the client accepts: the login prompt's refusal of a name is never
      reached. */
  lemma {:induction false} TokensAcceptable(text: string)
    ensures forall t | t in Tokenize(text) :: t != "" && (forall c | c in t :: !IsBlank(c)) && C.Acceptable(t)
    decreases |text|
  {
    SkipBlankShorter(text);
    var t := SkipBlank(text);
    if t != "" {
      var w := Word(t);
      assert w[0] in w;
      TokensAcceptable(t[|w|..]);
    }
  }

  /** A whole login: two one-word lines at a new prompt log in, and pop the prompt, exactly when a challenge
      is held, a token is answered and neither word starts with a NUL; then the first word, cut to 31
      characters, goes out with the token and nothing secret is kept. Otherwise the prompt starts over and
      the challenge is still there. */
  lemma LoginFlow(id: nat, name: string, pass: string, client: C.Client, unused: string, token: string)
    requires |Tokenize(name)| == 1 && |Tokenize(pass)| == 1
    ensures var first := LoginCommand(LoginOverlay(false, false), id, name, client, unused);
      var second := LoginCommand(first.layer, id, pass, first.client, token);
      var word, secret := Tokenize(name)[0], Tokenize(pass)[0];
      && word != "" && secret != "" && first.submits == None && first.sends == []
      && (second.submits == Some(LayerPop(id, true)) <==>
            client.challenge != "" && token != "" && word[0] != NUL && secret[0] != NUL)
      && (second.submits.Some? ==>
            && second.sends == ["|/trn " + C.CStr(word[..Min(|word|, 31)]) + ",0," + token]
            && second.client == client.(username := "", password := "", challenge := "",
                                        outbox := client.outbox + second.sends))
      && (second.submits.None? ==>
            && second.layer == LoginOverlay(false, false) && second.sends == []
            && second.client.challenge == client.challenge && second.client.outbox == client.outbox)
  {
    TokensAcceptable(name);
    TokensAcceptable(pass);
    var word, secret := Tokenize(name)[0], Tokenize(pass)[0];
    assert word in Tokenize(name) && secret in Tokenize(pass);
    StoredStart(word);
    StoredStart(secret);
  }

  function Min(a: nat, b: nat): nat { if a < b then a else b }

  lemma StoredStart(word: string)
    requires word != ""
    ensures C.Stored(word) == C.CStr(word[..Min(|word|, 31)])
    ensures C.Stored(word) != "" <==> word[0] != NUL
  {
    assert word[..|word|] == word;
  }

  // ---- orders ----

  /** What a battle can ask of the server. */
  datatype Order = Move(slot: char, tera: bool) | Switch(slot: char) | Forfeit | Timer(on: bool)

  predicate ValidOrder(o: Order) {
    (o.Move? ==> '1' <= o.slot <= '4') && (o.Switch? ==> '1' <= o.slot <= '6')
  }

  /** The server's text for an order. */
  function Text(o: Order): string {
    match o
    case Move(slot, tera) => "|/choose move " + [slot] + (if tera then " terastallize" else "")
    case Switch(slot) => "|/choose switch " + [slot]
    case Forfeit => "|/forfeit"
    case Timer(on) => if on then "|/timer on" else "|/timer off"
  }

  /** A line a battle answers with a text. */
  predicate Understood(cmd: string) {
    (Tokenize(cmd) != [] && IsChoice(Tokenize(cmd)[0])) || cmd == "f" || cmd == "t" || IsSlot(cmd)
  }

  predicate Blank(cmd: string) { cmd != "" && IsBlank(cmd[0]) }

  /** The first word of a line that does not start with a blank starts the line. */
  lemma FirstWord(cmd: string)
    requires Tokenize(cmd) != [] && !Blank(cmd)
    ensures cmd != "" && Tokenize(cmd)[0] != "" && Tokenize(cmd)[0][0] == cmd[0]
  {
    SkipBlankShorter(cmd);
    assert SkipBlank(cmd) == cmd;
  }

  lemma NoWords(cmd: string)
    requires cmd == "f" || cmd == "t" || IsSlot(cmd)
    ensures Tokenize(cmd) != [] && !IsChoice(Tokenize(cmd)[0])
  {
    assert SkipBlank(cmd) == cmd;
    FirstWord(cmd);
  }

  /** At most one text goes out, exactly for the lines understood; the event stops here, nothing is submitted
      and the battle itself stays as it is. */
  lemma BattleAnswers(l: Layer, cmd: string, client: C.Client)
    requires l.BattleLayer?
    ensures var r := BattleCommand(l, cmd, client);
      && |r.sends| <= 1 && (r.sends != [] <==> Understood(cmd))
      && r.handled && r.submits == None && r.client == client && Akin(l, r.layer)
      && (r.layer != l <==> cmd == "t")
      && forall t | t in r.sends :: l.room + "|/" <= t
  {
    if cmd == "f" || cmd == "t" || IsSlot(cmd) { NoWords(cmd); }
    var r := BattleCommand(l, cmd, client);
    if r.sends != [] {
      assert r.sends[0][|l.room|..|l.room| + 2] == "|/";
    }
  }

  /** A choice, which reads the slot off the start of the line and not off its first word. */
  lemma ChoiceText(l: Layer, cmd: string, client: C.Client)
    requires l.BattleLayer? && Tokenize(cmd) != [] && IsChoice(Tokenize(cmd)[0])
    ensures cmd != ""
    ensures var tera := |Tokenize(cmd)| == 2 && Tokenize(cmd)[1] == "tera";
      BattleCommand(l, cmd, client).sends ==
        [l.room + Text(if l.state.forceSwitch == Some(true) then Switch(cmd[0]) else Move(cmd[0], tera))]
  {
    assert cmd[..1] == [cmd[0]];
  }

  /** Orders are told apart by their texts as long as a slot is not a blank. */
  lemma TextsDiffer(room: string, o: Order, slot: char, tera: bool)
    requires ValidOrder(o) && IsBlank(slot)
    ensures room + Text(o) != room + Text(Move(slot, tera)) && room + Text(o) != room + Text(Switch(slot))
  {
    var n, a, b, c := |room|, room + Text(o), room + Text(Move(slot, tera)), room + Text(Switch(slot));
    assert b[n + 2] == 'c' && b[n + 9] == 'm' && b[n + 14] == slot;
    assert c[n + 2] == 'c' && c[n + 9] == 's' && c[n + 16] == slot;
    match o
    case Move(_, _) => assert a[n + 9] == 'm' && a[n + 14] == o.slot;
    case Switch(_) => assert a[n + 9] == 's' && a[n + 16] == o.slot;
    case Forfeit => assert a[n + 2] == 'f';
    case Timer(_) => assert a[n + 2] == 't';
  }

  /** The order a line means. */
  function Meant(l: Layer, cmd: string): Order
    requires l.BattleLayer? && Understood(cmd)
  {
    if cmd == "f" then Forfeit
    else if cmd == "t" then Timer(!l.timerActive)
    else if IsSlot(cmd) then Switch(cmd[1])
    else
      var words := Tokenize(cmd);
      if l.state.forceSwitch == Some(true) then Switch(words[0][0])
      else Move(words[0][0], |words| == 2 && words[1] == "tera")
  }

  /** What goes out is the order meant, in the battle's room, exactly when the line does not start with a
      blank; a choice that does sends the blank as its slot, which is no order at all. */
  lemma OrderSent(l: Layer, cmd: string, client: C.Client)
    requires l.BattleLayer? && Understood(cmd)
    ensures ValidOrder(Meant(l, cmd))
    ensures BattleCommand(l, cmd, client).sends == [l.room + Text(Meant(l, cmd))] <==> !Blank(cmd)
    ensures Blank(cmd) ==>
      forall o | ValidOrder(o) :: BattleCommand(l, cmd, client).sends != [l.room + Text(o)]
  {
    if cmd == "f" || cmd == "t" || IsSlot(cmd) {
      NoWords(cmd);
      if IsSlot(cmd) {
        assert cmd[1..] == [cmd[1]];
        assert l.room + "|/choose switch " + cmd[1..] == l.room + Text(Switch(cmd[1]));
      }
    } else {
      ChoiceText(l, cmd, client);
      var tera := |Tokenize(cmd)| == 2 && Tokenize(cmd)[1] == "tera";
      if Blank(cmd) {
        forall o | ValidOrder(o) ensures BattleCommand(l, cmd, client).sends != [l.room + Text(o)] {
          TextsDiffer(l.room, o, cmd[0], tera);
        }
      } else {
        FirstWord(cmd);
      }
    }
  }

  // ---- the timer ----

  /** The battle after some typed lines, and the timer texts they sent. */
  function AfterLines(l: Layer, cmds: seq<string>, client: C.Client): (r: (Layer, seq<string>))
    requires l.BattleLayer?
    ensures r.0.BattleLayer?
  {
    if cmds == [] then (l, [])
    else
      var last := |cmds| - 1;
      var before := AfterLines(l, cmds[..last], client);
      BattleAnswers(before.0, cmds[last], client);
      var r := BattleCommand(before.0, cmds[last], client);
      (r.layer, before.1 + if cmds[last] == "t" then r.sends else [])
  }

  function Toggles(cmds: seq<string>): nat {
    if cmds == [] then 0 else Toggles(cmds[..|cmds| - 1]) + if cmds[|cmds| - 1] == "t" then 1 else 0
  }

  function Alternating(room: string, n: nat): seq<string> {
    if n == 0 then [] else Alternating(room, n - 1) + [room + Text(Timer(n % 2 == 1))]
  }

  /** One more line. */
  lemma OneLine(l: Layer, cmds: seq<string>, cmd: string, client: C.Client)
    requires l.BattleLayer?
    ensures var before, after := AfterLines(l, cmds, client), AfterLines(l, cmds + [cmd], client);
      && after.0.room == before.0.room
      && after.0.timerActive == (before.0.timerActive != (cmd == "t"))
      && after.1 == before.1 + (if cmd == "t" then [before.0.room + Text(Timer(!before.0.timerActive))] else [])
    ensures Toggles(cmds + [cmd]) == Toggles(cmds) + if cmd == "t" then 1 else 0
  {
    hide BattleCommand, Understood, ValidOrder, Text;
    assert (cmds + [cmd])[..|cmds|] == cmds;
    var before := AfterLines(l, cmds, client).0;
    TimerAnswer(before, cmd, client);
  }

  lemma TimerAnswer(l: Layer, cmd: string, client: C.Client)
    requires l.BattleLayer?
    ensures var r := BattleCommand(l, cmd, client);
      && r.layer.BattleLayer? && r.layer.room == l.room
      && r.layer.timerActive == (l.timerActive != (cmd == "t"))
      && (cmd == "t" ==> r.sends == [l.room + Text(Timer(!l.timerActive))])
  {
    BattleAnswers(l, cmd, client);
    if cmd == "t" {
      OrderSent(l, "t", client);
    }
  }

  /** However many lines come between, the timer texts of a battle switch it on, off, on and so on, one for
      each toggle, and the flag says what the last of them was. */
  lemma {:induction false} TimerAlternates(l: Layer, cmds: seq<string>, client: C.Client)
    requires l.BattleLayer? && !l.timerActive
    ensures var r := AfterLines(l, cmds, client);
      && r.0.timerActive == (Toggles(cmds) % 2 == 1)
      && r.1 == Alternating(l.room, Toggles(cmds))
      && r.0.room == l.room
  {
    hide Text;
    if cmds != [] {
      var front, cmd := cmds[..|cmds| - 1], cmds[|cmds| - 1];
      assert cmds == front + [cmd];
      hide AfterLines, Toggles;
      TimerAlternates(l, front, client);
      OneLine(l, front, cmd, client);
    }
  }
}
