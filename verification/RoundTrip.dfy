/** A printer for the line format src/protocol/parser.cpp reads, and what printing and parsing lose. */
module RoundTrip {
  import opened Types
  import opened Parser

  function Fields(m: Message): seq<string> { [m.kind] + m.args }

  function Line(m: Message): string { [BAR] + Join(Fields(m), BAR) }

  function Header(m: Message, room: string): seq<string> {
    if m.room == room then [] else [['>'] + m.room]
  }

  /** One '|' line per message, and a '>' line wherever the room changes from the one in force. */
  function Lines(ms: seq<Message>, room: string): seq<string> {
    if ms == [] then []
    else Header(ms[0], room) + [Line(ms[0])] + Lines(ms[1..], ms[0].room)
  }

  function Print(ms: seq<Message>): string { Join(Lines(ms, ""), LF) }

  /** No delimiter of the format inside a field or a room. */
  predicate Printable(m: Message) {
    LF !in m.room && forall f | f in Fields(m) :: BAR !in f && LF !in f
  }

  ghost predicate AllPrintable(ms: seq<Message>) {
    forall i | 0 <= i < |ms| :: Printable(ms[i])
  }

  predicate EndsInCr(s: string) { s != "" && s[|s| - 1] == CR }

  predicate CrFree(m: Message) { !EndsInCr(m.room) && forall f | f in Fields(m) :: !EndsInCr(f) }

  /** The last of some fields without one trailing carriage return: what stripping the line does. */
  function StripLast(fs: seq<string>): (r: seq<string>)
    requires fs != []
    ensures |r| == |fs|
  {
    fs[..|fs| - 1] + [StripCr(fs[|fs| - 1])]
  }

  /** What survives a trip through the format: one carriage return is lost at the end of a room and of
      every field, and a second one at the end of the last field. */
  function Received(m: Message): Message {
    var fs := StripAll(StripLast(Fields(m)));
    Message(StripCr(m.room), fs[0], fs[1..])
  }

  function ReceivedAll(ms: seq<Message>): (r: seq<Message>)
    ensures |r| == |ms|
    ensures forall i | 0 <= i < |ms| :: r[i] == Received(ms[i])
  {
    if ms == [] then [] else [Received(ms[0])] + ReceivedAll(ms[1..])
  }

  lemma {:induction false} JoinAvoids(fs: seq<string>, d: char, c: char)
    requires c != d && forall f | f in fs :: c !in f
    ensures c !in Join(fs, d)
  {
    if |fs| > 1 { JoinAvoids(fs[1..], d, c); }
  }

  /** Stripping looks at the last character only. */
  lemma StripCrAfter(front: string, tail: string)
    requires front != "" && front[|front| - 1] != CR
    ensures StripCr(front + tail) == front + StripCr(tail)
  {
    if tail == "" {
      assert front + tail == front;
    } else {
      assert (front + tail)[..|front + tail| - 1] == front + tail[..|tail| - 1];
    }
  }

  lemma {:induction false} StripJoin(fs: seq<string>, d: char)
    requires fs != [] && d != CR
    ensures StripCr(Join(fs, d)) == Join(StripLast(fs), d)
  {
    if |fs| > 1 {
      StripJoin(fs[1..], d);
      var front, tail := fs[0] + [d], Join(fs[1..], d);
      StripCrAfter(front, tail);
      var cut := StripLast(fs);
      assert cut[0] == fs[0] && cut[1..] == StripLast(fs[1..]);
      assert Join(cut, d) == cut[0] + [d] + Join(cut[1..], d);
    }
  }

  /** A printed message line reads back as the received message. */
  lemma LineReads(m: Message, room: string)
    requires Printable(m)
    ensures LineMessage(StripCr(Line(m)), room) == Received(m).(room := room)
  {
    var fs := Fields(m);
    StripJoin(fs, BAR);
    StripCrAfter([BAR], Join(fs, BAR));
    assert StripCr(Line(m))[1..] == Join(StripLast(fs), BAR);
    forall f | f in StripLast(fs) ensures BAR !in f {
      if f == StripCr(fs[|fs| - 1]) { assert fs[|fs| - 1] in fs; }
    }
    PiecesJoin(StripLast(fs), BAR);
  }

  lemma RoomLineReads(ms: seq<string>, to: string, room: string)
    ensures ParseLines([['>'] + to] + ms, room) == ParseLines(ms, to)
  {
    var ls := [['>'] + to] + ms;
    assert ls[1..] == ms && ls[0][1..] == to;
  }

  lemma BarLineReads(l: string, ms: seq<string>, room: string)
    requires l != "" && l[0] == BAR
    ensures ParseLines([l] + ms, room) == [LineMessage(l, room)] + ParseLines(ms, room)
  {
    assert ([l] + ms)[1..] == ms;
  }

  lemma StripConcat(a: seq<string>, b: seq<string>)
    ensures StripAll(a + b) == StripAll(a) + StripAll(b)
  {
  }

  /** What the parser makes of a room line, if any, then a message line, then the rest. */
  lemma HeaderReads(m: Message, room: string, said: string, rest: seq<string>)
    requires said != "" && said[0] == BAR
    ensures ParseLines(StripAll(Header(m, room)) + [said] + rest, StripCr(room)) ==
      [LineMessage(said, StripCr(m.room))] + ParseLines(rest, StripCr(m.room))
  {
    var head := StripAll(Header(m, room));
    BarLineReads(said, rest, StripCr(m.room));
    if m.room == room {
      assert head + [said] + rest == [said] + rest;
    } else {
      StripCrAfter(['>'], m.room);
      assert head + [said] + rest == [['>'] + StripCr(m.room)] + ([said] + rest);
      RoomLineReads([said] + rest, StripCr(m.room), StripCr(room));
    }
  }

  lemma LinesStrip(head: seq<string>, l: string, rest: seq<string>)
    ensures StripAll(head + [l] + rest) == StripAll(head) + [StripCr(l)] + StripAll(rest)
  {
    StripConcat(head + [l], rest);
    StripConcat(head, [l]);
  }

  lemma {:induction false} LinesRead(ms: seq<Message>, room: string)
    requires AllPrintable(ms)
    ensures ParseLines(StripAll(Lines(ms, room)), StripCr(room)) == ReceivedAll(ms)
  {
    if ms != [] {
      LinesRead(ms[1..], ms[0].room);
      FirstReads(ms, room);
    }
  }

  lemma FirstReads(ms: seq<Message>, room: string)
    requires AllPrintable(ms) && ms != []
    ensures ParseLines(StripAll(Lines(ms, room)), StripCr(room)) ==
      [Received(ms[0])] + ParseLines(StripAll(Lines(ms[1..], ms[0].room)), StripCr(ms[0].room))
  {
    var m, rest := ms[0], Lines(ms[1..], ms[0].room);
    LinesStrip(Header(m, room), Line(m), rest);
    LineStaysBar(m);
    HeaderReads(m, room, StripCr(Line(m)), StripAll(rest));
    LineReads(m, StripCr(m.room));
  }

  lemma LineStaysBar(m: Message)
    ensures StripCr(Line(m)) != "" && StripCr(Line(m))[0] == BAR
  {
    StripCrAfter([BAR], Join(Fields(m), BAR));
  }

  lemma {:induction false} LinesHaveNoLf(ms: seq<Message>, room: string)
    requires AllPrintable(ms)
    ensures forall l | l in Lines(ms, room) :: LF !in l
  {
    if ms != [] {
      JoinAvoids(Fields(ms[0]), BAR, LF);
      LinesHaveNoLf(ms[1..], ms[0].room);
    }
  }

  /** Round trip: what comes back is exactly the received form of what was printed. */
  lemma PrintThenParse(ms: seq<Message>)
    requires AllPrintable(ms)
    ensures Messages(Print(ms)) == ReceivedAll(ms)
  {
    if ms != [] {
      LinesHaveNoLf(ms, "");
      PiecesJoin(Lines(ms, ""), LF);
      LinesRead(ms, "");
      assert StripCr("") == "";
    }
  }

  lemma StripSame(s: string)
    ensures StripCr(s) == s <==> !EndsInCr(s)
    ensures StripCr(StripCr(s)) == s <==> !EndsInCr(s)
  {
  }

  lemma StripFieldsSame(fs: seq<string>)
    requires fs != []
    ensures StripAll(StripLast(fs)) == fs <==> forall f | f in fs :: !EndsInCr(f)
  {
    var back := StripAll(StripLast(fs));
    forall i | 0 <= i < |fs| ensures back[i] == fs[i] <==> !EndsInCr(fs[i]) {
      StripSame(fs[i]);
    }
    if forall f | f in fs :: !EndsInCr(f) {
      assert forall i | 0 <= i < |fs| :: fs[i] in fs;
      assert back == fs;
    } else {
      var i :| 0 <= i < |fs| && EndsInCr(fs[i]);
      assert back[i] != fs[i];
    }
  }

  lemma FieldsDetermine(m: Message)
    ensures m == Message(m.room, Fields(m)[0], Fields(m)[1..])
  {
    assert Fields(m)[1..] == m.args;
  }

  lemma FieldsOf(room: string, fs: seq<string>)
    requires fs != []
    ensures Fields(Message(room, fs[0], fs[1..])) == fs
  {
  }

  lemma ReceivedSame(m: Message)
    ensures Received(m) == m <==> CrFree(m)
  {
    StripSame(m.room);
    StripFieldsSame(Fields(m));
    FieldsDetermine(m);
    FieldsOf(StripCr(m.room), StripAll(StripLast(Fields(m))));
  }

  /** The trip is the identity exactly on lists no field or room of which ends in a carriage return. */
  lemma RoundTripExact(ms: seq<Message>)
    requires AllPrintable(ms)
    ensures Messages(Print(ms)) == ms <==> forall i | 0 <= i < |ms| :: CrFree(ms[i])
  {
    PrintThenParse(ms);
    var back := ReceivedAll(ms);
    forall i | 0 <= i < |ms| ensures back[i] == ms[i] <==> CrFree(ms[i]) {
      ReceivedSame(ms[i]);
    }
    if forall i | 0 <= i < |ms| :: CrFree(ms[i]) { assert back == ms; }
  }

  /** Whatever the parser produces can be printed: its fields and rooms hold no delimiter. */
  lemma {:induction false} ParsedArePrintable(raw: string)
    ensures AllPrintable(Messages(raw))
  {
    JoinPieces(raw, LF);
    var lines := Split(raw, LF);
    forall i | 0 <= i < |lines| ensures LF !in lines[i] {
      assert Pieces(raw, LF)[i] in Pieces(raw, LF);
    }
    LinesPrintable(lines, "");
  }

  lemma {:induction false} LinesPrintable(lines: seq<string>, room: string)
    requires LF !in room && forall i | 0 <= i < |lines| :: LF !in lines[i]
    ensures AllPrintable(ParseLines(lines, room))
  {
    if lines != [] {
      var l := lines[0];
      var room' := if l != "" && l[0] == '>' then l[1..] else room;
      LinesPrintable(lines[1..], room');
      if l != "" && l[0] == BAR { LinePrintable(l, room); }
    }
  }

  lemma LinePrintable(l: string, room: string)
    requires LF !in room && LF !in l && l != ""
    ensures Printable(LineMessage(l, room))
  {
    var body := l[1..];
    var m := LineMessage(l, room);
    JoinPieces(body, BAR);
    PiecesAvoid(body, BAR, LF);
    assert Fields(m) == Split(body, BAR);
    forall f | f in Fields(m) ensures BAR !in f && LF !in f {
      var i :| 0 <= i < |Fields(m)| && Fields(m)[i] == f;
      assert Pieces(body, BAR)[i] in Pieces(body, BAR);
    }
  }

  lemma {:induction false} PiecesAvoid(s: string, d: char, c: char)
    requires c !in s
    ensures forall t | t in Pieces(s, d) :: c !in t
    decreases |s|
  {
    var i := Find(s, d, 0);
    if i < |s| { PiecesAvoid(s[i + 1..], d, c); }
  }

  /** Printing what was parsed and parsing again changes nothing exactly when no field or room that came
      out of the first parse still ends in a carriage return. */
  lemma Reparse(raw: string)
    ensures Messages(Print(Messages(raw))) == Messages(raw) <==>
      forall i | 0 <= i < |Messages(raw)| :: CrFree(Messages(raw)[i])
  {
    ParsedArePrintable(raw);
    RoundTripExact(Messages(raw));
  }

  // ---- identifiers ----

  function PrintIdent(id: Ident): string {
    id.side + (if id.slot == NUL then "" else [id.slot]) + ": " + id.name
  }

  /** Two characters of side without ':', a slot other than ':', a name that starts with no space. */
  predicate CleanIdent(id: Ident) {
    |id.side| == 2 && ':' !in id.side && id.slot != ':' && id.name != "" && id.name[0] != ' '
  }

  /** Every identifier the parser returns is clean or the empty one. */
  lemma ParsedIdentClean(s: string)
    ensures ParseIdent(s) == NO_IDENT || CleanIdent(ParseIdent(s))
  {
    if s != "" {
      var pos := Find(s, ':', 0);
      assert pos == 3 ==> s[2] != ':';
    }
  }

  lemma CleanIdentReads(id: Ident)
    requires CleanIdent(id)
    ensures ParseIdent(PrintIdent(id)) == id
  {
    var meta := id.side + (if id.slot == NUL then "" else [id.slot]);
    var s := PrintIdent(id);
    assert s == meta + ": " + id.name;
    FindIs(s, ':', 0, |meta|);
    assert s[|meta| + 1] == ' ' && s[|meta| + 2] == id.name[0];
    assert SkipSpaces(s, |meta| + 1) == |meta| + 2;
    assert s[|meta| + 2..] == id.name && s[..2] == id.side;
  }

  /** An identifier survives printing and parsing exactly when it is clean or the empty one. */
  lemma IdentRoundTrip(id: Ident)
    ensures ParseIdent(PrintIdent(id)) == id <==> id == NO_IDENT || CleanIdent(id)
  {
    ParsedIdentClean(PrintIdent(id));
    if CleanIdent(id) {
      CleanIdentReads(id);
    } else if id == NO_IDENT {
      assert PrintIdent(id) == ": ";
      assert Find(": ", ':', 0) == 0 && SkipSpaces(": ", 1) == 2;
    }
  }
}
