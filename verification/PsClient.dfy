/** The login handshake of src/protocol/psclient.cpp and psclient.h: a one-shot challenge and credentials
    in two 32-byte buffers. The answer of request_assertion is an argument. */
module PsClient {
  import opened Types
  import opened Parser
  import RT = RoundTrip
  import Q = SpscQueue

  /** `username` and `password` are the C strings in the buffers, `outbox` the texts passed to send. */
  datatype Client = Client(loggedIn: bool, challenge: string, username: string, password: string,
                           outbox: seq<string>)

  const NEW_CLIENT := Client(false, "", "", "", [])
  const BUFFER := 32

  /** What a C reader sees of a buffer: everything up to the first NUL. */
  function CStr(buffer: seq<char>): string { buffer[..Find(buffer, NUL, 0)] }

  /** Neither empty nor blank. */
  predicate Acceptable(text: string) { exists c | c in text :: c !in " \t\r\n" }

  /** What storing a text leaves readable: at most 31 characters, none of them NUL. */
  function Stored(text: string): string {
    CStr(if |text| <= BUFFER - 1 then text else text[..BUFFER - 1])
  }

  function SetUsername(c: Client, text: string): Client {
    if Acceptable(text) then c.(username := Stored(text)) else c
  }

  function SetPassword(c: Client, text: string): Client {
    if Acceptable(text) then c.(password := Stored(text)) else c
  }

  predicate LoginSucceeds(c: Client, token: string) {
    c.challenge != "" && c.username != "" && c.password != "" && token != ""
  }

  function LoginText(c: Client, token: string): string { "|/trn " + c.username + ",0," + token }

  function TryLogin(c: Client, token: string): Client {
    if LoginSucceeds(c, token) then
      c.(outbox := c.outbox + [LoginText(c, token)],
         username := "", password := "", challenge := "")
    else c
  }

  function OnChallStr(c: Client, args: seq<string>): Client
    requires |args| >= 2
  {
    if c.loggedIn then c else c.(challenge := args[0] + "|" + args[1])
  }

  function OnUpdateUser(c: Client, args: seq<string>): Client {
    if |args| > 1 && args[1] == "1" then c.(loggedIn := true) else c
  }

  predicate Readable(m: Message) { m.kind == "challstr" ==> |m.args| >= 2 }

  /** What poll does with a message before handing it on. */
  function OnMessage(c: Client, m: Message): Client
    requires Readable(m)
  {
    if m.kind == "challstr" then OnChallStr(c, m.args)
    else if m.kind == "updateuser" then OnUpdateUser(c, m.args)
    else c
  }

  // ---- the object ----

  class Session {
    var loggedIn: bool
    var challStr: string
    const username: array<char>
    const password: array<char>
    var outbox: seq<string>

    ghost predicate Valid()
      reads this, username, password
    {
      && username != password && username.Length == BUFFER && password.Length == BUFFER
      && NUL in username[..] && NUL in password[..]
    }

    ghost function View(): Client
      reads this, username, password
    {
      Client(loggedIn, challStr, CStr(username[..]), CStr(password[..]), outbox)
    }

    constructor ()
      ensures Valid() && View() == NEW_CLIENT && fresh(username) && fresh(password)
    {
      loggedIn, challStr, outbox := false, "", [];
      username := new char[BUFFER](_ => NUL);
      password := new char[BUFFER](_ => NUL);
      new;
      assert username[..][0] == NUL && password[..][0] == NUL;
    }

    /** The bounded copy both setters make; bytes past the terminator keep what they held. */
    method Store(buffer: array<char>, text: string) returns (ok: bool)
      requires buffer.Length == BUFFER
      modifies buffer
      ensures ok <==> Acceptable(text)
      ensures ok ==> CStr(buffer[..]) == Stored(text) && NUL in buffer[..]
      ensures !ok ==> buffer[..] == old(buffer[..])
    {
      if text == "" || forall c | c in text :: c in " \t\r\n" {
        return false;
      }
      var len := if |text| <= BUFFER - 1 then |text| else BUFFER - 1;
      for i := 0 to len
        invariant forall j | 0 <= j < i :: buffer[j] == text[j]
      {
        buffer[i] := text[i];
      }
      buffer[len] := NUL;
      assert buffer[..][len] == NUL;
      assert buffer[..len] == text[..len];
      assert text[..|text|] == text;
      TerminatedCStr(buffer[..], len);
      ok := true;
    }

    method SetUsername(text: string) returns (ok: bool)
      requires Valid()
      modifies username
      ensures Valid() && ok == Acceptable(text) && View() == Step(old(View()), EnterUsername(text))
    {
      ok := Store(username, text);
    }

    method SetPassword(text: string) returns (ok: bool)
      requires Valid()
      modifies password
      ensures Valid() && ok == Acceptable(text) && View() == Step(old(View()), EnterPassword(text))
    {
      ok := Store(password, text);
    }

    /** Reads a buffer as a C string. */
    method Read(buffer: array<char>) returns (text: string)
      requires buffer.Length == BUFFER && NUL in buffer[..]
      ensures text == CStr(buffer[..])
    {
      var i := 0;
      var n :| 0 <= n < BUFFER && buffer[n] == NUL;
      while buffer[i] != NUL
        invariant 0 <= i <= n
        invariant forall j | 0 <= j < i :: buffer[j] != NUL
        decreases n - i
      {
        i := i + 1;
      }
      TerminatedCStr(buffer[..], i);
      text := buffer[..i];
    }

    method Zero(buffer: array<char>)
      requires buffer.Length == BUFFER
      modifies buffer
      ensures CStr(buffer[..]) == "" && NUL in buffer[..]
    {
      for i := 0 to BUFFER
        invariant forall j | 0 <= j < i :: buffer[j] == NUL
      {
        buffer[i] := NUL;
      }
      assert buffer[..][0] == NUL;
    }

    /** `token` is what request_assertion answers, "" meaning failure. */
    method TryLogin(token: string) returns (ok: bool)
      requires Valid()
      modifies this, username, password
      ensures Valid() && ok == LoginSucceeds(old(View()), token)
      ensures View() == Step(old(View()), Login(token))
    {
      if challStr == "" {
        return false;
      }
      if username[0] == NUL || password[0] == NUL {
        return false;
      }
      if token == "" {
        return false;
      }
      var name := Read(username);
      outbox := outbox + ["|/trn " + name + ",0," + token];
      Zero(username);
      Zero(password);
      challStr := "";
      return true;
    }

    /** poll: one message off the inbound queue, looked at and handed on. */
    method Poll(inbound: Q.SPSCQueue<Message>) returns (ok: bool, out: Message)
      requires Valid() && inbound.Valid() && (inbound.Contents() != [] ==> Readable(inbound.Contents()[0]))
      modifies this, inbound, inbound.slots
      ensures Valid() && inbound.Valid()
      ensures ok <==> old(inbound.Contents()) != []
      ensures ok ==> old(inbound.Contents()) == [out] + inbound.Contents() && Readable(out)
                     && View() == OnMessage(old(View()), out)
      ensures !ok ==> inbound.Contents() == old(inbound.Contents()) && View() == old(View())
    {
      ok, out := inbound.Pop();
      if !ok {
        return;
      }
      if out.kind == "challstr" {
        if !loggedIn {
          challStr := out.args[0] + "|" + out.args[1];
        }
      } else if out.kind == "updateuser" {
        if out.args != [] {
          if |out.args| > 1 && out.args[1] == "1" {
            loggedIn := true;
          }
        }
      }
    }
  }

  lemma TerminatedCStr(buffer: seq<char>, n: nat)
    requires n < |buffer| && buffer[n] == NUL
    ensures CStr(buffer) == CStr(buffer[..n])
    ensures (forall j | 0 <= j < n :: buffer[j] != NUL) ==> CStr(buffer) == buffer[..n]
  {
    var i := Find(buffer, NUL, 0);
    FindIs(buffer[..n], NUL, 0, if i < n then i else n);
    assert buffer[..n][..Find(buffer[..n], NUL, 0)] == buffer[..i];
  }

  // ---- runs ----

  datatype Event =
    | Receive(msg: Message)
    | EnterUsername(text: string)
    | EnterPassword(text: string)
    | Login(token: string)

  predicate Possible(es: seq<Event>) { forall e | e in es :: e.Receive? ==> Readable(e.msg) }

  function Step(c: Client, e: Event): Client
    requires e.Receive? ==> Readable(e.msg)
  {
    match e
    case Receive(m) => OnMessage(c, m)
    case EnterUsername(text) => SetUsername(c, text)
    case EnterPassword(text) => SetPassword(c, text)
    case Login(token) => TryLogin(c, token)
  }

  function Run(c: Client, es: seq<Event>): Client
    requires Possible(es)
    decreases |es|
  {
    if es == [] then c
    else
      assert es[0] in es && forall e | e in es[1..] :: e in es;
      Run(Step(c, es[0]), es[1..])
  }

  lemma {:induction false} RunConcat(c: Client, a: seq<Event>, b: seq<Event>)
    requires Possible(a) && Possible(b)
    ensures Possible(a + b) && Run(c, a + b) == Run(Run(c, a), b)
    decreases |a|
  {
    if a == [] {
      assert a + b == b;
    } else {
      assert a[0] in a && forall e | e in a[1..] :: e in a;
      RunConcat(Step(c, a[0]), a[1..], b);
      assert (a + b)[1..] == a[1..] + b;
    }
  }

  /** The messages among the events. */
  function Receipts(es: seq<Event>): seq<Message> {
    if es == [] then [] else (if es[0].Receive? then [es[0].msg] else []) + Receipts(es[1..])
  }

  lemma {:induction false} ReceiptsConcat(a: seq<Event>, b: seq<Event>)
    ensures Receipts(a + b) == Receipts(a) + Receipts(b)
  {
    if a == [] {
      assert a + b == b && Receipts(a) == [] && [] + Receipts(b) == Receipts(b);
    } else {
      var first := if a[0].Receive? then [a[0].msg] else [];
      assert (a + b)[1..] == a[1..] + b;
      ReceiptsConcat(a[1..], b);
      assert Receipts(a + b) == first + Receipts(a[1..] + b);
      assert first + (Receipts(a[1..]) + Receipts(b)) == first + Receipts(a[1..]) + Receipts(b);
    }
  }

  function Challenges(ms: seq<Message>): nat {
    if ms == [] then 0 else (if ms[0].kind == "challstr" then 1 else 0) + Challenges(ms[1..])
  }

  /** Only challenges are accepted. */
  lemma {:induction false} AcceptedArrived(c: Client, es: seq<Event>)
    requires Possible(es)
    ensures Accepted(c, es) <= Challenges(Receipts(es))
    decreases |es|
  {
    if es != [] {
      assert es[0] in es && forall e | e in es[1..] :: e in es;
      AcceptedArrived(Step(c, es[0]), es[1..]);
      var rest := Receipts(es[1..]);
      if es[0].Receive? {
        assert Receipts(es) == [es[0].msg] + rest && ([es[0].msg] + rest)[1..] == rest;
      } else {
        assert Receipts(es) == rest;
      }
    }
  }

  /** How many challenges a run accepts: those that arrive before the user is named. */
  function Accepted(c: Client, es: seq<Event>): nat
    requires Possible(es)
    decreases |es|
  {
    if es == [] then 0
    else
      assert es[0] in es && forall e | e in es[1..] :: e in es;
      (if es[0].Receive? && es[0].msg.kind == "challstr" && !c.loggedIn then 1 else 0)
      + Accepted(Step(c, es[0]), es[1..])
  }

  function Held(c: Client): nat { if c.challenge == "" then 0 else 1 }

  /** Every /trn uses up a challenge: in any run there are no more of them than challenges accepted. */
  lemma {:induction false} ChallengesSpent(c: Client, es: seq<Event>)
    requires Possible(es)
    ensures |Run(c, es).outbox| + Held(Run(c, es)) <= |c.outbox| + Held(c) + Accepted(c, es)
    decreases |es|
  {
    if es != [] {
      assert es[0] in es && forall e | e in es[1..] :: e in es;
      ChallengesSpent(Step(c, es[0]), es[1..]);
    }
  }

  /** The buffers never show more than 31 characters. */
  predicate Bounded(c: Client) { |c.username| < BUFFER && |c.password| < BUFFER }

  lemma {:induction false} AlwaysBounded(c: Client, es: seq<Event>)
    requires Possible(es) && Bounded(c)
    ensures Bounded(Run(c, es))
    decreases |es|
  {
    if es != [] {
      assert es[0] in es && forall e | e in es[1..] :: e in es;
      AlwaysBounded(Step(c, es[0]), es[1..]);
    }
  }

  /** The text of the last username accepted, if no login has succeeded since. */
  function LastUsername(c: Client, es: seq<Event>, current: string): string
    requires Possible(es)
    decreases |es|
  {
    if es == [] then current
    else
      var e := es[0];
      assert e in es && forall x | x in es[1..] :: x in es;
      LastUsername(Step(c, e), es[1..],
        if e.EnterUsername? && Acceptable(e.text) then e.text
        else if e.Login? && LoginSucceeds(c, e.token) then ""
        else current)
  }

  lemma {:induction false} UsernameIsLast(c: Client, es: seq<Event>, current: string)
    requires Possible(es) && c.username == Stored(current)
    ensures Run(c, es).username == Stored(LastUsername(c, es, current))
    decreases |es|
  {
    if es != [] {
      var e := es[0];
      assert e in es && forall x | x in es[1..] :: x in es;
      assert Stored("") == "";
      UsernameIsLast(Step(c, e), es[1..],
        if e.EnterUsername? && Acceptable(e.text) then e.text
        else if e.Login? && LoginSucceeds(c, e.token) then ""
        else current);
    }
  }

  /** Challenge use: in every run from a new client the /trn texts number at most the challenges accepted,
      and a login that succeeds next sends exactly the last accepted username, cut to 31 characters and at
      any NUL, with the token, and leaves no challenge to use again. */
  lemma ChallengeUse(es: seq<Event>, token: string)
    requires Possible(es)
    ensures var c := Run(NEW_CLIENT, es);
      && |c.outbox| <= Accepted(NEW_CLIENT, es)
      && (LoginSucceeds(c, token) ==>
            var name := Stored(LastUsername(NEW_CLIENT, es, ""));
            && 0 < |name| <= 31
            && |c.outbox| < Accepted(NEW_CLIENT, es)
            && TryLogin(c, token).outbox == c.outbox + ["|/trn " + name + ",0," + token]
            && forall again :: !LoginSucceeds(TryLogin(c, token), again))
  {
    ChallengesSpent(NEW_CLIENT, es);
    AlwaysBounded(NEW_CLIENT, es);
    assert Stored("") == "";
    UsernameIsLast(NEW_CLIENT, es, "");
  }

  /** Without a newly accepted challenge nothing more is ever sent. */
  lemma {:induction false} SpentChallenge(c: Client, es: seq<Event>)
    requires Possible(es) && c.challenge == "" && Accepted(c, es) == 0
    ensures Run(c, es).outbox == c.outbox
    decreases |es|
  {
    if es != [] {
      assert es[0] in es && forall e | e in es[1..] :: e in es;
      SpentChallenge(Step(c, es[0]), es[1..]);
    }
  }

  // ---- the challenge text ----

  /** The pieces of a line whose trailing carriage return was stripped. */
  lemma StrippedPieces(r: string)
    ensures Pieces(StripCr(r), BAR) == RT.StripLast(Pieces(r, BAR))
  {
    var ps := Pieces(r, BAR);
    JoinPieces(r, BAR);
    RT.StripJoin(ps, BAR);
    var cut := RT.StripLast(ps);
    forall t | t in cut ensures BAR !in t {
      if t == StripCr(ps[|ps| - 1]) { assert ps[|ps| - 1] in ps; }
    }
    PiecesJoin(cut, BAR);
  }

  /** A line of some kind. */
  function Frame(kind: string, r: string): string { [BAR] + (kind + [BAR] + r) }

  lemma FrameLine(kind: string, r: string, room: string)
    requires BAR !in kind && !RT.EndsInCr(kind)
    ensures LineMessage(Frame(kind, r), room) == Message(room, kind, Split(r, BAR))
  {
    assert Frame(kind, r)[1..] == kind + [BAR] + r;
    CutPiece(kind, BAR, r);
    RT.StripConcat([kind], Pieces(r, BAR));
    assert StripAll([kind]) == [kind];
  }

  lemma FrameStrip(kind: string, r: string)
    ensures StripCr(Frame(kind, r)) == Frame(kind, StripCr(r))
  {
    var front := [BAR] + kind + [BAR];
    RT.StripCrAfter(front, r);
    assert Frame(kind, r) == front + r && Frame(kind, StripCr(r)) == front + StripCr(r);
  }

  /** A line of some kind, wherever it stands in a frame, gives a message of that kind. */
  lemma LineInFrame(raw: string, k: nat, kind: string, r: string) returns (m: Message)
    requires BAR !in kind && !RT.EndsInCr(kind)
    requires k < |Pieces(raw, LF)| && Pieces(raw, LF)[k] == Frame(kind, r)
    ensures m in Messages(raw) && m.kind == kind && m.args == Split(StripCr(r), BAR)
  {
    var lines, line := Split(raw, LF), Frame(kind, StripCr(r));
    FrameStrip(kind, r);
    assert lines == lines[..k] + ([line] + lines[k + 1..]);
    var room := RoomAfter(lines[..k], "");
    ParseLinesConcat(lines[..k], [line] + lines[k + 1..], "");
    RT.BarLineReads(line, lines[k + 1..], room);
    FrameLine(kind, StripCr(r), room);
    m := LineMessage(line, room);
  }

  /** The stored challenge of a challstr line, whatever else the frame holds, is the server's text exactly when
      that text has one '|' and no carriage return before it or at the end. */
  lemma ChallengeText(c: Client, raw: string, k: nat, r: string) returns (m: Message)
    requires k < |Pieces(raw, LF)| && Pieces(raw, LF)[k] == Frame("challstr", r)
    requires BAR in r && !c.loggedIn
    ensures m in Messages(raw) && m.kind == "challstr" && Readable(m)
    ensures OnMessage(c, m).challenge == r <==>
      var ps := Pieces(r, BAR); |ps| == 2 && !RT.EndsInCr(ps[0]) && !RT.EndsInCr(ps[1])
  {
    m := LineInFrame(raw, k, "challstr", r);
    StoredText(r);
  }

  lemma StoredText(r: string)
    requires BAR in r
    ensures var args, ps := Split(StripCr(r), BAR), Pieces(r, BAR);
      && |args| == |ps| >= 2
      && (args[0] + "|" + args[1] == r <==> |ps| == 2 && !RT.EndsInCr(ps[0]) && !RT.EndsInCr(ps[1]))
  {
    StrippedPieces(r);
    var ps := Pieces(r, BAR);
    JoinPieces(r, BAR);
    assert ps[0] in ps && BAR !in ps[0];
    var args := Split(StripCr(r), BAR);
    var stored := args[0] + "|" + args[1];
    assert args[0] == StripCr(ps[0]);
    RT.StripSame(ps[0]);
    RT.StripSame(ps[1]);
    if |ps| == 2 {
      assert args[1] == StripCr(StripCr(ps[1]));
      assert r == ps[0] + [BAR] + ps[1] by { assert ps[1..] == [ps[1]]; }
      if args[0] != ps[0] || args[1] != ps[1] { assert |stored| < |r|; }
    } else {
      assert args[1] == StripCr(ps[1]);
      JoinLength(ps);
      assert |stored| < |r|;
    }
  }

  lemma JoinLength(ps: seq<string>)
    requires |ps| >= 3
    ensures |Join(ps, BAR)| > |ps[0]| + 1 + |ps[1]|
  {
    assert Join(ps, BAR) == ps[0] + [BAR] + Join(ps[1..], BAR);
    assert Join(ps[1..], BAR) == ps[1] + [BAR] + Join(ps[1..][1..], BAR);
  }
}
