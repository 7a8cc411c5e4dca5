/** The outbound half of src/net/wsclient.cpp: handlers posted to a strand, a queue of texts, and
    asynchronous writes whose completions come back on the strand. */
module WriteStrand {
  import opened Types

  /** `posted` are send handlers not yet run, `outstanding` the buffers of writes started and not yet
      completed, `written` the buffers of writes that completed without error. */
  datatype Net = Net(posted: seq<string>, queue: seq<string>, outstanding: seq<string>, written: seq<string>,
                     failed: bool, stopped: bool)

  datatype Event =
    | Send(text: string)      // a call of send, on any thread
    | RunPosted               // the strand runs the oldest posted handler
    | WriteDone(ok: bool)     // the oldest outstanding write completes
    | Stop                    // the io_context stops: no handler runs again

  const IDLE := Net([], [], [], [], false, false)

  function Format(text: string): string {
    if text != "" && text[|text| - 1] == '\n' then text else text + "\n"
  }

  function Formatted(texts: seq<string>): (r: seq<string>)
    ensures |r| == |texts|
  {
    seq(|texts|, i requires 0 <= i < |texts| => Format(texts[i]))
  }

  function DoWrite(n: Net): Net
    requires n.queue != []
  {
    n.(outstanding := n.outstanding + [n.queue[0]])
  }

  predicate Enabled(n: Net, e: Event) {
    match e
    case Send(text) => text != ""
    case RunPosted => !n.stopped && n.posted != []
    case WriteDone(_) => !n.stopped && n.outstanding != []
    case Stop => true
  }

  function Step(n: Net, e: Event): Net
    requires Enabled(n, e)
  {
    match e
    case Send(text) => n.(posted := n.posted + [Format(text)])
    case RunPosted =>
      var n' := n.(posted := n.posted[1..], queue := n.queue + [n.posted[0]]);
      if n.queue == [] then DoWrite(n') else n'
    case WriteDone(ok) =>
      var n' := n.(outstanding := n.outstanding[1..]);
      if ok then
        var n'' := n'.(written := n.written + [n.outstanding[0]], queue := if n.queue == [] then [] else n.queue[1..]);
        if n''.queue != [] then DoWrite(n'') else n''
      else n'.(failed := true)
    case Stop => n.(stopped := true)
  }

  function Exec(n: Net, es: seq<Event>): Option<Net>
    decreases |es|
  {
    if es == [] then Some(n)
    else if Enabled(n, es[0]) then Exec(Step(n, es[0]), es[1..])
    else None
  }

  function Added(e: Event): seq<string> { if e.Send? then [e.text] else [] }

  function Sends(es: seq<Event>): seq<string> {
    if es == [] then [] else Added(es[0]) + Sends(es[1..])
  }

  predicate NoError(es: seq<Event>) { WriteDone(false) !in es }

  // ---- the object ----

  /** The fields of WsClient that take part, with the strand's handlers as methods. */
  class WsClient {
    var posted: seq<string>
    var internalWriteQueue: seq<string>
    var outstanding: seq<string>
    var written: seq<string>
    var failed: bool
    var stopped: bool
    ghost var sent: seq<string>

    function View(): Net
      reads this
    {
      Net(posted, internalWriteQueue, outstanding, written, failed, stopped)
    }

    ghost predicate Valid()
      reads this
    {
      Inv(View(), sent)
    }

    constructor ()
      ensures Valid() && View() == IDLE && sent == []
    {
      posted, internalWriteQueue, outstanding, written, failed, stopped := [], [], [], [], false, false;
      sent := [];
    }

    method Send(message: string)
      requires Valid() && message != ""
      modifies this
      ensures Valid() && sent == old(sent) + [message]
      ensures View() == Step(old(View()), Event.Send(message))
    {
      StepInv(View(), Event.Send(message), sent);
      var formatted := message;
      if formatted[|formatted| - 1] != '\n' {
        formatted := formatted + "\n";
      }
      posted := posted + [formatted];
      sent := sent + [message];
    }

    /** The posted lambda of send. */
    method RunPostedHandler()
      requires Valid() && Enabled(View(), RunPosted)
      modifies this
      ensures Valid() && sent == old(sent)
      ensures View() == Step(old(View()), RunPosted)
    {
      StepInv(View(), RunPosted, sent);
      assert sent + [] == sent;
      var formatted := posted[0];
      posted := posted[1..];
      var writeInProgress := internalWriteQueue != [];
      internalWriteQueue := internalWriteQueue + [formatted];
      if !writeInProgress {
        StartWrite();
      }
    }

    /** do_write: start an asynchronous write of the front of the queue. */
    method StartWrite()
      requires internalWriteQueue != []
      modifies this`outstanding
      ensures View() == DoWrite(old(View()))
    {
      outstanding := outstanding + [internalWriteQueue[0]];
    }

    /** The completion handler of do_write; the front it pops is there. */
    method WriteCompleted(ok: bool)
      requires Valid() && Enabled(View(), WriteDone(ok))
      modifies this
      ensures Valid() && sent == old(sent)
      ensures View() == Step(old(View()), WriteDone(ok))
    {
      StepInv(View(), WriteDone(ok), sent);
      assert sent + [] == sent;
      var buffer := outstanding[0];
      outstanding := outstanding[1..];
      if ok {
        written := written + [buffer];
        internalWriteQueue := internalWriteQueue[1..];
        if internalWriteQueue != [] {
          StartWrite();
        }
      } else {
        failed := true;
      }
    }
  }

  // ---- what every run keeps ----

  /** Every text on its way, oldest first. */
  function All(n: Net): seq<string> { n.written + n.queue + n.posted }

  /** The front of the queue is the one buffer being written. */
  ghost predicate Writing(n: Net) {
    && (n.outstanding == [] || (n.queue != [] && n.outstanding == [n.queue[0]]))
    && (n.failed ==> n.outstanding == [] && n.queue != [])
    && (!n.failed ==> (n.outstanding == [] <==> n.queue == []))
  }

  ghost predicate Inv(n: Net, sent: seq<string>) {
    Writing(n) && All(n) == Formatted(sent)
  }

  lemma StepWriting(n: Net, e: Event)
    requires Writing(n) && Enabled(n, e)
    ensures Writing(Step(n, e))
  {
  }

  lemma FirstMoves(front: seq<string>, xs: seq<string>, back: seq<string>)
    requires xs != []
    ensures front + xs + back == front + [xs[0]] + xs[1..] + back
  {
    assert xs == [xs[0]] + xs[1..];
    assert front + ([xs[0]] + xs[1..]) == front + [xs[0]] + xs[1..];
  }

  lemma StepAll(n: Net, e: Event)
    requires Writing(n) && Enabled(n, e)
    ensures All(Step(n, e)) == All(n) + Formatted(Added(e))
  {
    match e
    case Send(text) =>
      assert Formatted([text]) == [Format(text)];
      assert n.written + n.queue + (n.posted + [Format(text)]) == All(n) + [Format(text)];
    case RunPosted =>
      FirstMoves(n.written + n.queue, n.posted, []);
      assert n.written + (n.queue + [n.posted[0]]) == n.written + n.queue + [n.posted[0]];
      assert All(Step(n, e)) == All(n) && All(n) + [] == All(n);
    case WriteDone(ok) =>
      if ok { FirstMoves(n.written, n.queue, n.posted); }
      assert All(Step(n, e)) == All(n) && All(n) + [] == All(n);
    case Stop =>
      assert All(n) + [] == All(n);
  }

  lemma StepInv(n: Net, e: Event, sent: seq<string>)
    requires Inv(n, sent) && Enabled(n, e)
    ensures Inv(Step(n, e), sent + Added(e))
  {
    StepWriting(n, e);
    StepAll(n, e);
    assert Formatted(sent + Added(e)) == Formatted(sent) + Formatted(Added(e));
  }

  lemma {:induction false} ExecInv(n: Net, es: seq<Event>, sent: seq<string>)
    requires Inv(n, sent) && Exec(n, es).Some?
    ensures Inv(Exec(n, es).value, sent + Sends(es))
    decreases |es|
  {
    if es == [] {
      assert sent + [] == sent;
    } else {
      StepInv(n, es[0], sent);
      ExecInv(Step(n, es[0]), es[1..], sent + Added(es[0]));
      assert sent + (Added(es[0]) + Sends(es[1..])) == sent + Added(es[0]) + Sends(es[1..]);
    }
  }

  lemma {:induction false} ExecFlags(n: Net, es: seq<Event>)
    requires Exec(n, es).Some?
    ensures !n.failed && NoError(es) ==> !Exec(n, es).value.failed
    ensures n.failed || !NoError(es) ==> Exec(n, es).value.failed
    decreases |es|
  {
    if es != [] { ExecFlags(Step(n, es[0]), es[1..]); }
  }

  lemma FormattedConcat(a: seq<string>, b: seq<string>)
    ensures Formatted(a + b) == Formatted(a) + Formatted(b)
  {
    hide Format;
  }

  lemma RunInv(es: seq<Event>)
    requires Exec(IDLE, es).Some?
    ensures Inv(Exec(IDLE, es).value, Sends(es))
  {
    assert Inv(IDLE, []);
    ExecInv(IDLE, es, []);
    assert [] + Sends(es) == Sends(es);
  }

  /** Order and conservation: in every run the completed writes, the queue and the unrun handlers, end to
      end, are the texts of the send calls in order, each ending in a newline; at most one write is
      outstanding, and its buffer is the front of the queue. */
  lemma Conservation(es: seq<Event>)
    requires Exec(IDLE, es).Some?
    ensures var n := Exec(IDLE, es).value;
      && n.written + n.queue + n.posted == Formatted(Sends(es))
      && (n.outstanding == [] || (n.queue != [] && n.outstanding == [n.queue[0]]))
      && (forall t | t in n.written + n.queue + n.posted :: t != "" && t[|t| - 1] == '\n')
  {
    assert Inv(IDLE, []);
    ExecInv(IDLE, es, []);
    assert [] + Sends(es) == Sends(es);
  }

  /** Until a write fails, a write is outstanding exactly when the queue is nonempty. */
  lemma WritingWhileQueued(es: seq<Event>)
    requires Exec(IDLE, es).Some? && NoError(es)
    ensures var n := Exec(IDLE, es).value; n.outstanding == [] <==> n.queue == []
  {
    assert Inv(IDLE, []);
    ExecInv(IDLE, es, []);
    ExecFlags(IDLE, es);
  }

  lemma {:induction false} ExecConcat(n: Net, a: seq<Event>, b: seq<Event>)
    ensures Exec(n, a + b) == match Exec(n, a) case None => None case Some(m) => Exec(m, b)
    decreases |a|
  {
    if a == [] {
      assert a + b == b;
    } else {
      assert (a + b)[1..] == a[1..] + b;
      if Enabled(n, a[0]) { ExecConcat(Step(n, a[0]), a[1..], b); }
    }
  }

  /** After one write error, whatever follows: nothing more is written, no write is started, and the text
      whose write failed stays at the front. */
  lemma AfterWriteError(es: seq<Event>, more: seq<Event>)
    requires Exec(IDLE, es + [WriteDone(false)] + more).Some?
    ensures Exec(IDLE, es).Some? && var n, m := Exec(IDLE, es).value, Exec(IDLE, es + [WriteDone(false)] + more).value;
      && m.written == n.written
      && m.outstanding == []
      && n.queue != [] && n.queue <= m.queue
  {
    ExecConcat(IDLE, es + [WriteDone(false)], more);
    ExecConcat(IDLE, es, [WriteDone(false)]);
    var n := Exec(IDLE, es).value;
    assert Inv(IDLE, []);
    ExecInv(IDLE, es, []);
    assert Exec(n, [WriteDone(false)]) == Some(Step(n, WriteDone(false)));
    Stuck(Step(n, WriteDone(false)), more);
  }

  lemma {:induction false} Stuck(n: Net, es: seq<Event>)
    requires n.outstanding == [] && n.queue != [] && Exec(n, es).Some?
    ensures var m := Exec(n, es).value; m.written == n.written && m.outstanding == [] && n.queue <= m.queue
    decreases |es|
  {
    if es != [] { Stuck(Step(n, es[0]), es[1..]); }
  }

  // ---- progress ----

  /** How many more handlers it takes to write everything. */
  function Measure(n: Net): nat { 2 * |n.posted| + |n.queue| }

  predicate HandlersOnly(es: seq<Event>) { forall e | e in es :: e == RunPosted || e == WriteDone(true) }

  lemma {:induction false} HandlersCount(n: Net, es: seq<Event>, sent: seq<string>)
    requires Inv(n, sent) && HandlersOnly(es) && Exec(n, es).Some?
    ensures Measure(Exec(n, es).value) + |es| == Measure(n)
    ensures Sends(es) == []
    decreases |es|
  {
    if es != [] {
      assert es[0] in es;
      StepInv(n, es[0], sent);
      assert HandlersOnly(es[1..]) by { assert forall e | e in es[1..] :: e in es; }
      HandlersCount(Step(n, es[0]), es[1..], sent + Added(es[0]));
    }
  }

  /** Progress: after any run without error or stop, handlers that run without error take exactly Measure
      steps; while some are left one of them can run, and when none is left every text sent has been
      written, in order. */
  lemma EverythingIsWritten(es: seq<Event>, more: seq<Event>)
    requires NoError(es) && Stop !in es && HandlersOnly(more)
    requires Exec(IDLE, es).Some? && Exec(Exec(IDLE, es).value, more).Some?
    ensures var n, m := Exec(IDLE, es).value, Exec(Exec(IDLE, es).value, more).value;
      && |more| <= Measure(n)
      && (|more| < Measure(n) ==> Enabled(m, RunPosted) || Enabled(m, WriteDone(true)))
      && (|more| == Measure(n) <==> m.written == Formatted(Sends(es)))
  {
    assert Inv(IDLE, []);
    ExecInv(IDLE, es, []);
    ExecFlags(IDLE, es);
    NeverStopped(IDLE, es);
    assert [] + Sends(es) == Sends(es);
    HandlersFinish(Exec(IDLE, es).value, more, Sends(es));
  }

  lemma HandlersFinish(n: Net, more: seq<Event>, sent: seq<string>)
    requires Inv(n, sent) && !n.failed && !n.stopped && HandlersOnly(more) && Exec(n, more).Some?
    ensures var m := Exec(n, more).value;
      && |more| <= Measure(n)
      && (|more| < Measure(n) ==> Enabled(m, RunPosted) || Enabled(m, WriteDone(true)))
      && (|more| == Measure(n) <==> m.written == Formatted(sent))
  {
    HandlersCount(n, more, sent);
    ExecInv(n, more, sent);
    assert sent + [] == sent;
    ExecFlags(n, more);
    NeverStopped(n, more);
    Leftover(Exec(n, more).value);
  }

  lemma Leftover(n: Net)
    ensures n.written == All(n) <==> Measure(n) == 0
  {
    assert |All(n)| == |n.written| + |n.queue| + |n.posted|;
    if Measure(n) == 0 { assert All(n) == n.written; }
  }

  lemma {:induction false} NeverStopped(n: Net, es: seq<Event>)
    requires Stop !in es && Exec(n, es).Some?
    ensures Exec(n, es).value.stopped == n.stopped
    decreases |es|
  {
    if es != [] { NeverStopped(Step(n, es[0]), es[1..]); }
  }
}
