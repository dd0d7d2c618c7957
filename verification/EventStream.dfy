/** Streaming a run's events (internal/api/agent_handlers.go, internal/store/run.go) to a
    client that reconnects with the id it received last, as in section 9.2 of the WHATWG
    HTML standard. */
module EventStreams {
  import opened Prelude
  import opened Tables

  /** Events are numbered 1 to n. */
  predicate Numbered(log: seq<Event>) { forall k :: 0 <= k < |log| ==> log[k].seq_ == k + 1 }

  /** The events numbered above `after`, in order. */
  function ListEvents(log: seq<Event>, after: nat): seq<Event> {
    if log == [] then []
    else
      var last := |log| - 1;
      ListEvents(log[..last], after) + if log[last].seq_ > after then [log[last]] else []
  }

  /** Events i + 1 to j. */
  function Segment(log: seq<Event>, i: nat, j: nat): seq<Event>
    requires i < j ==> j <= |log|
  {
    if i < j then log[i..j] else []
  }

  /** The end of the log, or `after` if that is past it. */
  function EndAfter(log: seq<Event>, after: nat): (j: nat)
    ensures j >= after && (after < j ==> j == |log|) && j >= |log|
  {
    if after < |log| then |log| else after
  }

  lemma {:induction false} ListedIsSegment(log: seq<Event>, after: nat)
    requires Numbered(log)
    ensures ListEvents(log, after) == Segment(log, after, EndAfter(log, after))
  {
    if log != [] {
      var last := |log| - 1;
      ListedIsSegment(log[..last], after);
      assert log[last].seq_ == last + 1;
      if after < last {
        assert log[..last][after..last] + [log[last]] == log[after..|log|];
      } else if after == last {
        assert [log[last]] == log[after..|log|];
      } else {
        assert ListEvents(log, after) == ListEvents(log[..last], after);
      }
    }
  }

  /** What goes over the wire: persisted events with their number as id, and the
      synthesized failure, which has none. */
  datatype Message = Persisted(event: Event) | Synthesized

  datatype Connection = Connection(lastSent: nat, sentTerminal: bool, wire: seq<Message>, open: bool)

  function Messages(events: seq<Event>): seq<Message> {
    seq(|events|, k requires 0 <= k < |events| => Persisted(events[k]))
  }

  predicate HasTerminal(events: seq<Event>) { exists e | e in events :: IsTerminal(e.kind) }

  /** Sends everything persisted since the last event sent. */
  function Drained(c: Connection, log: seq<Event>): Connection {
    var events := ListEvents(log, c.lastSent);
    Connection(if events == [] then c.lastSent else events[|events| - 1].seq_,
               c.sentTerminal || HasTerminal(events), c.wire + Messages(events), c.open)
  }

  /** Closes after a terminal event or when the run has ended without one. */
  function Checked(c: Connection, status: Status): Connection {
    if c.sentTerminal then c.(open := false)
    else if status.Active() then c
    else if status == Failed || status == Interrupted then c.(wire := c.wire + [Synthesized], open := false)
    else c.(open := false)
  }

  /** The handler's side of one connection. */
  class Handler {
    var lastSent: nat
    var sentTerminal: bool
    var wire: seq<Message>
    var open: bool

    constructor (afterSeq: nat)
      ensures State() == Connection(afterSeq, false, [], true)
    {
      lastSent, sentTerminal, wire, open := afterSeq, false, [], true;
    }

    ghost function State(): Connection
      reads this
    {
      Connection(lastSent, sentTerminal, wire, open)
    }

    method Drain(log: seq<Event>)
      modifies this
      ensures State() == Drained(old(State()), log)
    {
      var events := ListEvents(log, lastSent);
      for k := 0 to |events|
        invariant wire == old(wire) + Messages(events[..k])
        invariant lastSent == if k == 0 then old(lastSent) else events[k - 1].seq_
        invariant sentTerminal == (old(sentTerminal) || HasTerminal(events[..k]))
        invariant open == old(open)
      {
        assert events[..k + 1] == events[..k] + [events[k]];
        assert Messages(events[..k + 1]) == Messages(events[..k]) + [Persisted(events[k])];
        wire := wire + [Persisted(events[k])];
        lastSent := events[k].seq_;
        if IsTerminal(events[k].kind) {
          assert events[k] in events[..k + 1];
          sentTerminal := true;
        } else {
          assert forall e :: e in events[..k + 1] <==> e in events[..k] || e == events[k];
        }
      }
      assert events[..|events|] == events;
    }

    /** One turn of the polling loop; others may have written between the two reads. */
    method Poll(log: seq<Event>, status: Status)
      requires open
      modifies this
      ensures State() == Checked(Drained(old(State()), log), status)
    {
      Drain(log);
      if sentTerminal {
        open := false;
        return;
      }
      if !status.Active() {
        if status == Failed || status == Interrupted {
          wire := wire + [Synthesized];
        }
        open := false;
      }
    }
  }

  /* ---- The whole exchange ---- */

  /** The run, the client with the id it started from and the id it received last, what it
      has received, and the current connection with what is under way on it. */
  datatype World = World(
    log: seq<Event>, status: Status, start: nat, lastId: nat, received: seq<Event>, connection: Option<Connection>)

  datatype Step =
    | Write(log: seq<Event>, status: Status)  // the run goes on
    | Connect                                 // a new connection from the last received id
    | Send                                    // the handler drains
    | Check                                   // the handler looks at the run's status
    | Receive                                 // the client takes the next message
    | Drop                                    // the connection is lost with what is under way

  predicate Enabled(w: World, step: Step) {
    match step
    case Write(log, _) => w.log <= log && Numbered(log)
    case Connect => true
    case Send => w.connection.Some? && w.connection.value.open
    case Check => w.connection.Some? && w.connection.value.open
    case Receive => w.connection.Some? && w.connection.value.wire != []
    case Drop => true
  }

  function Next(w: World, step: Step): World
    requires Enabled(w, step)
  {
    match step
    case Write(log, status) => w.(log := log, status := status)
    case Connect => w.(connection := Some(Connection(w.lastId, false, [], true)))
    case Send => w.(connection := Some(Drained(w.connection.value, w.log)))
    case Check => w.(connection := Some(Checked(w.connection.value, w.status)))
    case Receive =>
      var c := w.connection.value;
      var rest := Some(c.(wire := c.wire[1..]));
      if c.wire[0].Persisted?
      then w.(connection := rest, lastId := c.wire[0].event.seq_, received := w.received + [c.wire[0].event])
      else w.(connection := rest)
    case Drop => w.(connection := None)
  }

  /** The persisted events among messages. */
  function Events(wire: seq<Message>): seq<Event> {
    if wire == [] then []
    else
      var last := |wire| - 1;
      Events(wire[..last]) + if wire[last].Persisted? then [wire[last].event] else []
  }

  lemma {:induction false} EventsOfSum(a: seq<Message>, b: seq<Message>)
    ensures Events(a + b) == Events(a) + Events(b)
  {
    if b == [] {
      assert a + b == a;
    } else {
      assert (a + b)[..|a + b| - 1] == a + b[..|b| - 1];
      EventsOfSum(a, b[..|b| - 1]);
    }
  }

  lemma {:induction false} EventsOfMessages(events: seq<Event>)
    ensures Events(Messages(events)) == events
  {
    if events != [] {
      var last := |events| - 1;
      assert Messages(events)[..last] == Messages(events[..last]);
      EventsOfMessages(events[..last]);
      assert events == events[..last] + [events[last]];
    }
  }

  /** Ids `i` and `j` may be past the log only if they are the same. */
  predicate Within(log: seq<Event>, i: nat, j: nat) { i <= j && (i < j ==> j <= |log|) }

  /** The client has received exactly the events after its start up to the last received
      id; under way are exactly those from there to the last one sent. */
  ghost predicate Faithful(w: World) {
    Numbered(w.log) && Within(w.log, w.start, w.lastId) && w.received == Segment(w.log, w.start, w.lastId) &&
    (w.connection.Some? ==>
      var c := w.connection.value;
      Within(w.log, w.lastId, c.lastSent) && Events(c.wire) == Segment(w.log, w.lastId, c.lastSent))
  }

  lemma SegmentsJoin(log: seq<Event>, i: nat, j: nat, k: nat)
    requires Within(log, i, j) && Within(log, j, k)
    ensures Within(log, i, k) && Segment(log, i, j) + Segment(log, j, k) == Segment(log, i, k)
  {
  }

  /** After a drain the last event sent is the last of the log. */
  lemma DrainedTo(c: Connection, log: seq<Event>)
    requires Numbered(log)
    ensures Drained(c, log).lastSent == EndAfter(log, c.lastSent)
    ensures Events(Drained(c, log).wire) == Events(c.wire) + Segment(log, c.lastSent, EndAfter(log, c.lastSent))
  {
    var events := ListEvents(log, c.lastSent);
    ListedIsSegment(log, c.lastSent);
    if events != [] {
      assert events[|events| - 1] == log[|log| - 1];
    }
    EventsOfMessages(events);
    EventsOfSum(c.wire, Messages(events));
  }

  lemma SendKeeps(w: World)
    requires Faithful(w) && Enabled(w, Send)
    ensures Faithful(Next(w, Send)) && Next(w, Send).connection.value.lastSent >= |w.log|
  {
    var c := w.connection.value;
    DrainedTo(c, w.log);
    SegmentsJoin(w.log, w.lastId, c.lastSent, EndAfter(w.log, c.lastSent));
  }

  lemma CheckKeeps(w: World)
    requires Faithful(w) && Enabled(w, Check)
    ensures Faithful(Next(w, Check))
  {
    var c := w.connection.value;
    EventsOfSum(c.wire, [Synthesized]);
    assert Events([Synthesized]) == [];
  }

  lemma {:induction false} EventsFromFirst(wire: seq<Message>)
    requires wire != []
    ensures Events(wire) == if wire[0].Persisted? then [wire[0].event] + Events(wire[1..]) else Events(wire[1..])
  {
    assert wire == [wire[0]] + wire[1..];
    EventsOfSum([wire[0]], wire[1..]);
    assert Events([wire[0]]) == Events([]) + if wire[0].Persisted? then [wire[0].event] else [];
  }

  /** The next event of a segment, and the segments that it joins and leaves. */
  lemma SegmentNext(log: seq<Event>, i: nat, k: nat, j: nat, e: Event, rest: seq<Event>)
    requires Numbered(log) && Within(log, i, k) && Within(log, k, j) && Segment(log, k, j) == [e] + rest
    ensures e.seq_ == k + 1 && Within(log, i, k + 1) && Within(log, k + 1, j)
    ensures Segment(log, i, k + 1) == Segment(log, i, k) + [e] && Segment(log, k + 1, j) == rest
  {
    assert Segment(log, k, j)[0] == e == log[k];
    assert Segment(log, k, j)[1..] == rest;
    assert Segment(log, k + 1, j) == rest;
    assert Segment(log, i, k + 1) == Segment(log, i, k) + [e];
  }

  lemma ReceiveKeeps(w: World)
    requires Faithful(w) && Enabled(w, Receive)
    ensures Faithful(Next(w, Receive))
  {
    var c := w.connection.value;
    EventsFromFirst(c.wire);
    if c.wire[0].Persisted? {
      SegmentNext(w.log, w.start, w.lastId, c.lastSent, c.wire[0].event, Events(c.wire[1..]));
    }
  }

  lemma StepKeeps(w: World, step: Step)
    requires Faithful(w) && Enabled(w, step)
    ensures Faithful(Next(w, step)) && w.received <= Next(w, step).received && Next(w, step).start == w.start
  {
    match step
    case Write(log, status) =>
      assert Segment(log, w.start, w.lastId) == Segment(w.log, w.start, w.lastId);
    case Send => SendKeeps(w);
    case Check => CheckKeeps(w);
    case Receive => ReceiveKeeps(w);
    case _ =>
  }

  /** Runs any steps that are enabled, and skips the others. */
  function Play(w: World, steps: seq<Step>): World {
    if steps == [] then w
    else
      var before := Play(w, steps[..|steps| - 1]);
      var step := steps[|steps| - 1];
      if Enabled(before, step) then Next(before, step) else before
  }

  /** Over any interleaving of writes, polls, closes, drops and reconnects, a client that
      started at `k` has received persisted events k + 1, k + 2, ... in order, each exactly
      once, up to the id it would reconnect with. */
  lemma {:induction false} ExactlyOnceInOrder(log: seq<Event>, status: Status, k: nat, steps: seq<Step>)
    requires Numbered(log)
    ensures var w := Play(World(log, status, k, k, [], None), steps);
            Faithful(w) && w.start == k && |w.received| == w.lastId - k &&
            forall j :: 0 <= j < |w.received| ==>
              k + j < |w.log| && w.received[j] == w.log[k + j] && w.received[j].seq_ == k + j + 1
  {
    var w0 := World(log, status, k, k, [], None);
    if steps != [] {
      var before := steps[..|steps| - 1];
      ExactlyOnceInOrder(log, status, k, before);
      if Enabled(Play(w0, before), steps[|steps| - 1]) {
        StepKeeps(Play(w0, before), steps[|steps| - 1]);
      }
    }
  }

  /** Takes everything under way. */
  function ReceiveAll(w: World): (w': World)
    decreases if w.connection.Some? then |w.connection.value.wire| else 0
  {
    if Enabled(w, Receive) then ReceiveAll(Next(w, Receive)) else w
  }

  lemma {:induction false} ReceiveAllCatchesUp(w: World)
    requires Faithful(w) && w.connection.Some?
    ensures var w' := ReceiveAll(w);
            Faithful(w') && w'.log == w.log && w'.start == w.start && w'.lastId == w.connection.value.lastSent
    decreases |w.connection.value.wire|
  {
    if Enabled(w, Receive) {
      ReceiveKeeps(w);
      ReceiveAllCatchesUp(Next(w, Receive));
    }
  }

  /** Nothing is ever out of reach: after a reconnect and one drain that gets through, the
      client has every persisted event after its start. */
  lemma ReconnectCatchesUp(w: World)
    requires Faithful(w) && w.start <= |w.log|
    ensures var w' := ReceiveAll(Next(Next(w, Connect), Send));
            w'.log == w.log && w'.received == w.log[w.start..]
  {
    var connected := Next(w, Connect);
    StepKeeps(w, Connect);
    SendKeeps(connected);
    ReceiveAllCatchesUp(Next(connected, Send));
  }

  /* ---- What a closing stream has told its client ---- */

  /** Do the messages say how the run has ended? */
  predicate Tells(wire: seq<Message>) { exists m | m in wire :: m.Synthesized? || IsTerminal(m.event.kind) }

  /** A turn of the polling loop: the log it drains, and the status it looks at after that. */
  datatype Turn = Turn(log: seq<Event>, status: Status)

  /** A connection from id `after` on, through turns of the polling loop until it closes. */
  function Served(after: nat, turns: seq<Turn>): Connection {
    if turns == [] then Connection(after, false, [], true)
    else
      var c := Served(after, turns[..|turns| - 1]);
      var turn := turns[|turns| - 1];
      if c.open then Checked(Drained(c, turn.log), turn.status) else c
  }

  /** The turns look at one log as it grows. */
  ghost predicate IsHistory(turns: seq<Turn>) {
    (forall i :: 0 <= i < |turns| ==> Numbered(turns[i].log)) &&
    forall i, j :: 0 <= i < j < |turns| ==> turns[i].log <= turns[j].log
  }

  /** No event numbered above `after` is terminal. */
  predicate QuietFrom(log: seq<Event>, after: nat) { forall k :: after <= k < |log| ==> !IsTerminal(log[k].kind) }

  lemma TellsSum(a: seq<Message>, b: seq<Message>)
    ensures Tells(a + b) <==> Tells(a) || Tells(b)
  {
    assert forall m :: m in a + b <==> m in a || m in b;
  }

  lemma TellsMessages(events: seq<Event>)
    ensures Tells(Messages(events)) <==> HasTerminal(events)
  {
    if HasTerminal(events) {
      var e :| e in events && IsTerminal(e.kind);
      var k :| 0 <= k < |events| && events[k] == e;
      assert Messages(events)[k] == Persisted(e);
    }
  }

  lemma {:induction false} HasTerminalFrom(log: seq<Event>, after: nat)
    requires Numbered(log)
    ensures HasTerminal(ListEvents(log, after)) <==> !QuietFrom(log, after)
  {
    ListedIsSegment(log, after);
    var events := ListEvents(log, after);
    if !QuietFrom(log, after) {
      var k :| after <= k < |log| && IsTerminal(log[k].kind);
      assert events[k - after] == log[k];
    }
  }

  /** A turn on a connection that has told nothing so far. */
  lemma TurnTells(c: Connection, log: seq<Event>, status: Status)
    requires Numbered(log) && c.open && !c.sentTerminal && !Tells(c.wire)
    ensures var d := Checked(Drained(c, log), status);
            (d.open <==> QuietFrom(log, c.lastSent) && status.Active()) &&
            (Tells(d.wire) <==> !QuietFrom(log, c.lastSent) || status == Failed || status == Interrupted) &&
            (d.open ==> !d.sentTerminal && d.lastSent == EndAfter(log, c.lastSent))
  {
    var events := ListEvents(log, c.lastSent);
    HasTerminalFrom(log, c.lastSent);
    DrainedTo(c, log);
    TellsSum(c.wire, Messages(events));
    TellsMessages(events);
    TellsSum(c.wire + Messages(events), [Synthesized]);
    assert Synthesized in [Synthesized];
  }

  /** The last turn's log is quiet from `after` on exactly if that of the turn before is and
      what has come since is. */
  lemma QuietGoesOn(before: seq<Event>, log: seq<Event>, after: nat)
    requires before <= log && QuietFrom(before, after)
    ensures QuietFrom(log, after) <==> QuietFrom(log, EndAfter(before, after))
  {
    forall k | after <= k < |before| ensures !IsTerminal(log[k].kind) {
      assert log[k] == before[k];
    }
  }

  /** While a stream is open it has told nothing, and there was nothing to tell. */
  lemma {:induction false} OpenIsQuiet(after: nat, turns: seq<Turn>)
    requires IsHistory(turns) && Served(after, turns).open
    ensures !Served(after, turns).sentTerminal && !Tells(Served(after, turns).wire)
    ensures Served(after, turns).lastSent == if turns == [] then after else EndAfter(turns[|turns| - 1].log, after)
    ensures turns != [] ==> QuietFrom(turns[|turns| - 1].log, after)
  {
    if turns != [] {
      var before, turn := turns[..|turns| - 1], turns[|turns| - 1];
      OpenIsQuiet(after, before);
      TurnTells(Served(after, before), turn.log, turn.status);
      if before != [] {
        QuietGoesOn(turns[|turns| - 2].log, turn.log, after);
      }
    }
  }

  /** When exactly a stream closes, and when it does so without a word on how the run has
      ended: in the turn that finds a succeeded run with no terminal event after the id the
      client came with, whether the client is past it or it is not written yet. */
  lemma {:induction false} SilentCloseExactly(after: nat, turns: seq<Turn>)
    requires IsHistory(turns) && turns != [] && Served(after, turns[..|turns| - 1]).open
    ensures var d, turn := Served(after, turns), turns[|turns| - 1];
            (!d.open <==> !QuietFrom(turn.log, after) || !turn.status.Active()) &&
            (!d.open && !Tells(d.wire) <==> QuietFrom(turn.log, after) && turn.status == Succeeded)
  {
    var before, turn := turns[..|turns| - 1], turns[|turns| - 1];
    OpenIsQuiet(after, before);
    TurnTells(Served(after, before), turn.log, turn.status);
    if before != [] {
      QuietGoesOn(turns[|turns| - 2].log, turn.log, after);
    }
  }
}
