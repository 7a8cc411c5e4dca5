/** src/protocol/parser.cpp: cutting a frame into messages, and an identifier into its parts. */
module Parser {
  import opened Types

  const CR: char := '\r'
  const LF: char := '\n'
  const BAR: char := '|'

  /** The first position of d at or after start, |s| standing for npos. */
  function Find(s: string, d: char, start: nat): (r: nat)
    requires start <= |s|
    ensures start <= r <= |s|
    ensures forall i | start <= i < r :: s[i] != d
    ensures r < |s| ==> s[r] == d
    decreases |s| - start
  {
    if start == |s| || s[start] == d then start else Find(s, d, start + 1)
  }

  /** One trailing carriage return removed, if there is one. */
  function StripCr(s: string): (r: string)
    ensures |s| - 1 <= |r| <= |s|
  {
    if s != "" && s[|s| - 1] == CR then s[..|s| - 1] else s
  }

  function StripAll(ts: seq<string>): (r: seq<string>)
    ensures |r| == |ts|
    ensures forall i | 0 <= i < |ts| :: r[i] == StripCr(ts[i])
  {
    seq(|ts|, i requires 0 <= i < |ts| => StripCr(ts[i]))
  }

  /** The pieces of s between delimiters; always at least one. */
  function Pieces(s: string, d: char): (ts: seq<string>)
    ensures ts != []
    decreases |s|
  {
    var i := Find(s, d, 0);
    if i == |s| then [s] else [s[..i]] + Pieces(s[i + 1..], d)
  }

  function Join(ts: seq<string>, d: char): string {
    if ts == [] then "" else if |ts| == 1 then ts[0] else ts[0] + [d] + Join(ts[1..], d)
  }

  function Split(s: string, d: char): seq<string> { StripAll(Pieces(s, d)) }

  /** The message a '|' line makes in a room. */
  function LineMessage(line: string, room: string): Message
    requires line != ""
  {
    var tokens := Split(line[1..], BAR);
    Message(room, tokens[0], tokens[1..])
  }

  function ParseLines(lines: seq<string>, room: string): seq<Message> {
    if lines == [] then []
    else if lines[0] == "" then ParseLines(lines[1..], room)
    else if lines[0][0] == '>' then ParseLines(lines[1..], lines[0][1..])
    else if lines[0][0] == BAR then [LineMessage(lines[0], room)] + ParseLines(lines[1..], room)
    else ParseLines(lines[1..], room)
  }

  function RoomAfter(lines: seq<string>, room: string): string {
    if lines == [] then room
    else if lines[0] != "" && lines[0][0] == '>' then RoomAfter(lines[1..], lines[0][1..])
    else RoomAfter(lines[1..], room)
  }

  /** What the messages of a frame are. */
  function Messages(raw: string): seq<Message> { ParseLines(Split(raw, LF), "") }

  // ---- the code's loops ----

  method SplitTokens(s: string, delim: char) returns (tokens: seq<string>)
    ensures tokens == Split(s, delim)
  {
    tokens := [];
    var start := 0;
    var end := Find(s, delim, 0);
    ghost var all, left := Split(s, delim), Split(s, delim);
    assert s[0..] == s;
    while end != |s|
      invariant 0 <= start <= end <= |s| && end == Find(s, delim, start)
      invariant left == Split(s[start..], delim)
      invariant all == tokens + left
      decreases |s| - start
    {
      SplitAt(s, delim, start);
      left := Split(s[end + 1..], delim);
      tokens := tokens + [StripCr(s[start..end])];
      start := end + 1;
      end := Find(s, delim, start);
    }
    SplitAt(s, delim, start);
    tokens := tokens + [StripCr(s[start..])];
  }

  method ParseMessage(raw: string) returns (msgs: seq<Message>)
    ensures msgs == Messages(raw)
  {
    if raw == "" {
      return [];
    }
    var lines := SplitTokens(raw, LF);
    var currentRoom := "";
    msgs := [];
    for i := 0 to |lines|
      invariant msgs + ParseLines(lines[i..], currentRoom) == Messages(raw)
    {
      var line := lines[i];
      ghost var rest := lines[i..];
      assert rest[0] == line && rest[1..] == lines[i + 1..];
      if line == "" {
        continue;
      }
      if line[0] == '>' {
        currentRoom := line[1..];
        continue;
      }
      if line[0] == BAR {
        var tokens := SplitTokens(line[1..], BAR);
        var args := [];
        for k := 1 to |tokens|
          invariant args == tokens[1..k]
        {
          args := args + [tokens[k]];
        }
        msgs := msgs + [Message(currentRoom, tokens[0], args)];
        assert Message(currentRoom, tokens[0], args) == LineMessage(line, currentRoom);
      }
    }
  }

  /** Identifiers: "p2: Hoopa" has no slot, "p2a: Hoopa" has slot 'a'. */
  function ParseIdent(ident: string): Ident {
    if ident == "" then NO_IDENT
    else
      var pos := Find(ident, ':', 0);
      if pos == |ident| then NO_IDENT
      else
        var start := SkipSpaces(ident, pos + 1);
        if start == |ident| then NO_IDENT
        else if pos == 2 then Ident(NUL, ident[..2], ident[start..])
        else if pos == 3 then Ident(ident[2], ident[..2], ident[start..])
        else NO_IDENT
  }

  function SkipSpaces(s: string, start: nat): (r: nat)
    requires start <= |s|
    ensures start <= r <= |s|
    ensures forall i | start <= i < r :: s[i] == ' '
    ensures r < |s| ==> s[r] != ' '
    decreases |s| - start
  {
    if start == |s| || s[start] != ' ' then start else SkipSpaces(s, start + 1)
  }

  // ---- cutting and joining are inverse ----

  /** The delimiter-free prefix and the delimiter after it determine where a search stops. */
  lemma {:induction false} FindIs(s: string, d: char, start: nat, r: nat)
    requires start <= r <= |s| && (forall i | start <= i < r :: s[i] != d) && (r < |s| ==> s[r] == d)
    ensures Find(s, d, start) == r
  {
  }

  /** A piece without the delimiter, then the delimiter: one piece is cut off. */
  lemma CutPiece(t: string, d: char, rest: string)
    requires d !in t
    ensures Pieces(t + [d] + rest, d) == [t] + Pieces(rest, d)
  {
    var s := t + [d] + rest;
    FindIs(s, d, 0, |t|);
    assert s[..|t|] == t && s[|t| + 1..] == rest;
  }

  lemma WholePiece(t: string, d: char)
    requires d !in t
    ensures Pieces(t, d) == [t]
  {
    FindIs(t, d, 0, |t|);
  }

  lemma StripCons(a: string, ts: seq<string>)
    ensures StripAll([a] + ts) == [StripCr(a)] + StripAll(ts)
  {
    hide StripCr;
  }

  /** What a search passes over holds no delimiter. */
  lemma PassedOver(s: string, d: char, start: nat)
    requires start <= |s|
    ensures d !in s[start..Find(s, d, start)]
  {
    hide Find;
    var t := s[start..Find(s, d, start)];
    forall k | 0 <= k < |t| ensures t[k] != d { assert t[k] == s[start + k]; }
  }

  /** One turn of the splitting loop. */
  lemma SplitAt(s: string, d: char, start: nat)
    requires start <= |s|
    ensures var end := Find(s, d, start);
      Split(s[start..], d) ==
        if end == |s| then [StripCr(s[start..])] else [StripCr(s[start..end])] + Split(s[end + 1..], d)
  {
    hide Find, StripCr, Pieces;
    var end := Find(s, d, start);
    PassedOver(s, d, start);
    if end == |s| {
      assert s[start..] == s[start..end];
      WholePiece(s[start..end], d);
      StripCons(s[start..end], []);
    } else {
      var a, b := s[start..end], s[end + 1..];
      assert s[start..] == a + [d] + b;
      CutPiece(a, d, b);
      StripCons(a, Pieces(b, d));
    }
  }

  lemma {:induction false} JoinPieces(s: string, d: char)
    ensures Join(Pieces(s, d), d) == s
    ensures forall t | t in Pieces(s, d) :: d !in t
    decreases |s|
  {
    var i := Find(s, d, 0);
    if i < |s| {
      JoinPieces(s[i + 1..], d);
      assert s == s[..i] + [d] + s[i + 1..];
      assert Pieces(s, d)[1..] == Pieces(s[i + 1..], d);
    }
  }

  lemma {:induction false} PiecesJoin(ts: seq<string>, d: char)
    requires ts != [] && forall t | t in ts :: d !in t
    ensures Pieces(Join(ts, d), d) == ts
  {
    if |ts| == 1 {
      WholePiece(ts[0], d);
    } else {
      PiecesJoin(ts[1..], d);
      CutPiece(ts[0], d, Join(ts[1..], d));
    }
  }

  /** Cutting distributes over a delimiter. */
  lemma {:induction false} SplitCompositional(a: string, d: char, b: string)
    ensures Split(a + [d] + b, d) == Split(a, d) + Split(b, d)
  {
    PiecesCompositional(a, d, b);
  }

  lemma {:induction false} PiecesCompositional(a: string, d: char, b: string)
    ensures Pieces(a + [d] + b, d) == Pieces(a, d) + Pieces(b, d)
    decreases |a|
  {
    var i := Find(a, d, 0);
    if i == |a| {
      WholePiece(a, d);
      CutPiece(a, d, b);
    } else {
      var t, rest := a[..i], a[i + 1..];
      assert a == t + [d] + rest;
      assert a + [d] + b == t + [d] + (rest + [d] + b);
      CutPiece(t, d, rest);
      CutPiece(t, d, rest + [d] + b);
      PiecesCompositional(rest, d, b);
    }
  }

  lemma {:induction false} ParseLinesConcat(a: seq<string>, b: seq<string>, room: string)
    ensures ParseLines(a + b, room) == ParseLines(a, room) + ParseLines(b, RoomAfter(a, room))
  {
    if a == [] {
      assert a + b == b;
    } else {
      var room' := if a[0] != "" && a[0][0] == '>' then a[0][1..] else room;
      ParseLinesConcat(a[1..], b, room');
      assert (a + b)[1..] == a[1..] + b;
    }
  }

  /** The lines carry no message, or name a room before the first one. */
  predicate OpensWithRoom(lines: seq<string>) {
    lines != [] ==>
      if lines[0] == "" then OpensWithRoom(lines[1..])
      else if lines[0][0] == '>' then true
      else lines[0][0] != BAR && OpensWithRoom(lines[1..])
  }

  lemma {:induction false} RoomMatters(lines: seq<string>, r: string, q: string)
    ensures ParseLines(lines, r) == ParseLines(lines, q) <==> r == q || OpensWithRoom(lines)
  {
    if lines != [] {
      if lines[0] == "" || (lines[0][0] != '>' && lines[0][0] != BAR) {
        RoomMatters(lines[1..], r, q);
      } else if lines[0][0] == BAR && r != q {
        assert ParseLines(lines, r)[0].room == r;
        assert ParseLines(lines, q)[0].room == q;
      }
    }
  }

  /** Two frames parsed as one give the messages of both exactly when the first leaves no room open or
      the second names a room before its first message. */
  lemma MessagesCompositional(a: string, b: string)
    ensures Messages(a + [LF] + b) == Messages(a) + Messages(b) <==>
      RoomAfter(Split(a, LF), "") == "" || OpensWithRoom(Split(b, LF))
  {
    var la, lb := Split(a, LF), Split(b, LF);
    SplitCompositional(a, LF, b);
    ParseLinesConcat(la, lb, "");
    RoomMatters(lb, RoomAfter(la, ""), "");
    var pa, pb, pb' := ParseLines(la, ""), ParseLines(lb, ""), ParseLines(lb, RoomAfter(la, ""));
    assert (pa + pb)[|pa|..] == pb && (pa + pb')[|pa|..] == pb';
  }
}
