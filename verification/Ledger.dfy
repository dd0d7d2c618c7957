/** The idempotency ledger (internal/store/idempotency.go).  Times are nanoseconds; stored
    times are whole seconds, because RFC 3339 text (section 5.6) is written without a
    fraction. */
module Ledgers {
  import opened Prelude

  type Instant = int

  const SECOND: int := 1_000_000_000
  const TTL_SECONDS: int := 30

  datatype Key = Key(endpoint: string, key: string)

  datatype Response = Response(status: int, body: string) {
    predicate IsSuccess() { 200 <= status < 300 }
  }

  datatype Record = Record(response: Response, createdAt: int)  // whole seconds

  /** What the wrapped operation makes of the state; an error rolls everything back. */
  datatype Outcome<S> = Failed | Done(state: S, response: Response)

  datatype Answer = Error | Replayed(response: Response) | Executed(response: Response)

  /** A stored time has lost its fraction. */
  function Truncated(now: Instant): int { now / SECOND }

  predicate WithinTTL(createdAt: int, now: Instant) { now - createdAt * SECOND < TTL_SECONDS * SECOND }

  datatype World<S> = World(state: S, records: map<Key, Record>)

  predicate Fresh<S>(w: World<S>, k: Key, now: Instant) { k in w.records && WithinTTL(w.records[k].createdAt, now) }

  /** A call that tests the window at `now` and stamps a record it makes at `stamp`. */
  function Call<S>(w: World<S>, k: Key, f: S -> Outcome<S>, now: Instant, stamp: Instant): (World<S>, Answer) {
    if Fresh(w, k, now) then (w, Replayed(w.records[k].response))
    else
      match f(w.state)
      case Failed => (w, Error)
      case Done(state, response) =>
        var others := w.records - {k};
        (World(state, if response.IsSuccess() then others[k := Record(response, Truncated(stamp))] else others),
         Executed(response))
  }

  /** Deletes the records stored before the cutoff. */
  function Collect<S>(w: World<S>, now: Instant): World<S> {
    var cutoff := Truncated(now - TTL_SECONDS * SECOND);
    w.(records := map k | k in w.records && w.records[k].createdAt >= cutoff :: w.records[k])
  }

  class Ledger<S> {
    var state: S
    var records: map<Key, Record>

    constructor (state: S)
      ensures this.state == state && records == map[]
    {
      this.state, records := state, map[];
    }

    ghost function Contents(): World<S>
      reads this
    {
      World(state, records)
    }

    /** Runs `f` at most once per key and window, and replays its response otherwise. */
    method RunIdempotent(k: Key, f: S -> Outcome<S>, now: Instant, stamp: Instant) returns (answer: Answer)
      modifies this
      ensures (Contents(), answer) == Call(old(Contents()), k, f, now, stamp)
    {
      var saved := records;
      if k in records {
        if WithinTTL(records[k].createdAt, now) {
          return Replayed(records[k].response);
        }
        records := records - {k};  // expired
      }
      match f(state)
      case Failed =>
        records := saved;
        answer := Error;
      case Done(next, response) =>
        assert k !in records && records == saved - {k};
        state := next;
        if response.IsSuccess() {
          records := records[k := Record(response, Truncated(stamp))];
        }
        answer := Executed(response);
    }

    method GCIdempotency(now: Instant)
      modifies this
      ensures Contents() == Collect(old(Contents()), now)
    {
      var cutoff := Truncated(now - TTL_SECONDS * SECOND);
      records := map k | k in records && records[k].createdAt >= cutoff :: records[k];
    }
  }

  /* ---- The window ---- */

  /** Whether a response stored at time `stored` is replayed depends on whole seconds only. */
  lemma WindowExactly(stored: Instant, now: Instant)
    ensures WithinTTL(Truncated(stored), now) <==> Truncated(now) < Truncated(stored) + TTL_SECONDS
  {
  }

  /** Replay is certain up to 29 seconds and impossible from 30 seconds on. */
  lemma WindowBounds(stored: Instant, now: Instant)
    ensures now - stored <= 29 * SECOND ==> WithinTTL(Truncated(stored), now)
    ensures now - stored >= 30 * SECOND ==> !WithinTTL(Truncated(stored), now)
  {
    WindowExactly(stored, now);
  }

  /** Between the two it depends on the fraction: 29.5 seconds may be either. */
  lemma WindowBoundsAreTight()
    ensures WithinTTL(Truncated(0), 29 * SECOND + SECOND / 2)
    ensures !WithinTTL(Truncated(SECOND / 2), 30 * SECOND)
  {
    assert Truncated(SECOND / 2) == 0;
  }

  /* ---- Histories ---- */

  datatype Op<!S> = Request(k: Key, f: S -> Outcome<S>, now: Instant, stamp: Instant) | Sweep(now: Instant) {
    /** The last reading of the clock. */
    function End(): Instant { if Request? then stamp else now }
  }

  /** The clock does not go back. */
  predicate Ordered<S>(ops: seq<Op<S>>) {
    (forall i :: 0 <= i < |ops| ==> ops[i].now <= ops[i].End()) &&
    forall i, j :: 0 <= i < j < |ops| ==> ops[i].End() <= ops[j].now
  }

  function Step<S>(w: World<S>, op: Op<S>): World<S> {
    match op
    case Request(k, f, now, stamp) => Call(w, k, f, now, stamp).0
    case Sweep(now) => Collect(w, now)
  }

  function After<S>(w: World<S>, ops: seq<Op<S>>): World<S> {
    if ops == [] then w else Step(After(w, ops[..|ops| - 1]), ops[|ops| - 1])
  }

  /** The answers to the requests, in order. */
  function Answers<S>(w: World<S>, ops: seq<Op<S>>): seq<Answer> {
    if ops == [] then []
    else
      var before := ops[..|ops| - 1];
      match ops[|ops| - 1]
      case Request(k, f, now, stamp) => Answers(w, before) + [Call(After(w, before), k, f, now, stamp).1]
      case Sweep(_) => Answers(w, before)
  }

  function Requests<S>(ops: seq<Op<S>>): seq<Op<S>> {
    if ops == [] then []
    else
      var last := ops[|ops| - 1];
      Requests(ops[..|ops| - 1]) + if last.Request? then [last] else []
  }

  /** Two worlds that no call from `now` on can tell apart. */
  ghost predicate Alike<S>(a: World<S>, b: World<S>, now: Instant) {
    a.state == b.state &&
    forall k :: Fresh(a, k, now) == Fresh(b, k, now) && (Fresh(a, k, now) ==> a.records[k] == b.records[k])
  }

  lemma AlikeLater<S>(a: World<S>, b: World<S>, now: Instant, later: Instant)
    requires Alike(a, b, now) && now <= later
    ensures Alike(a, b, later)
  {
    forall k: Key
      ensures Fresh(a, k, later) == Fresh(b, k, later) &&
              (Fresh(a, k, later) ==> a.records[k] == b.records[k])
    {
      assert Fresh(a, k, later) ==> Fresh(a, k, now);
      assert Fresh(b, k, later) ==> Fresh(b, k, now);
    }
  }

  lemma CallsAlike<S>(a: World<S>, b: World<S>, k: Key, f: S -> Outcome<S>, now: Instant, stamp: Instant)
    requires Alike(a, b, now) && now <= stamp
    ensures Call(a, k, f, now, stamp).1 == Call(b, k, f, now, stamp).1 && Alike(Call(a, k, f, now, stamp).0, Call(b,
        k, f, now, stamp).0, now)
  {
    assert Fresh(a, k, now) == Fresh(b, k, now);
    var a', b' := Call(a, k, f, now, stamp).0, Call(b, k, f, now, stamp).0;
    forall k': Key
      ensures Fresh(a', k', now) == Fresh(b', k', now) &&
              (Fresh(a', k', now) ==> a'.records[k'] == b'.records[k'])
    {
      assert Fresh(a, k', now) == Fresh(b, k', now);
    }
  }

  /** The collector deletes only what is no longer fresh. */
  lemma CollectAlike<S>(w: World<S>, now: Instant)
    ensures Alike(Collect(w, now), w, now)
  {
    forall k: Key | Fresh(w, k, now) ensures w.records[k].createdAt >= Truncated(now - TTL_SECONDS * SECOND) {
    }
  }

  lemma AlikeTransitive<S>(a: World<S>, b: World<S>, c: World<S>, now: Instant)
    requires Alike(a, b, now) && Alike(b, c, now)
    ensures Alike(a, c, now)
  {
    forall k: Key
      ensures Fresh(a, k, now) == Fresh(c, k, now) &&
              (Fresh(a, k, now) ==> a.records[k] == c.records[k])
    {
      assert Fresh(a, k, now) == Fresh(b, k, now);
    }
  }

  lemma {:induction false} RequestsAfter<S>(ops: seq<Op<S>>, op: Op<S>)
    ensures Requests(ops + [op]) == if op.Request? then Requests(ops) + [op] else Requests(ops)
  {
    assert (ops + [op])[..|ops|] == ops;
  }

  /** Collecting at any moments changes no answer of any call and no state. */
  lemma {:induction false} CollectionIsInvisible<S>(w: World<S>, ops: seq<Op<S>>, now: Instant)
    requires Ordered(ops) && forall i :: 0 <= i < |ops| ==> ops[i].End() <= now
    ensures Answers(w, ops) == Answers(w, Requests(ops))
    ensures Alike(After(w, ops), After(w, Requests(ops)), now)
    ensures After(w, ops).state == After(w, Requests(ops)).state
  {
    if ops != [] {
      var last := |ops| - 1;
      var before, op := ops[..last], ops[last];
      CollectionIsInvisible(w, before, op.now);
      assert before + [op] == ops;
      RequestsAfter(before, op);
      var a, b := After(w, before), After(w, Requests(before));
      match op
      case Request(k, f, at, stamp) =>
        CallsAlike(a, b, k, f, at, stamp);
        assert (Requests(before) + [op])[..|Requests(before)|] == Requests(before);
        AlikeLater(Call(a, k, f, at, stamp).0, Call(b, k, f, at, stamp).0, at, now);
      case Sweep(at) =>
        CollectAlike(a, at);
        AlikeTransitive(Collect(a, at), a, b, at);
        AlikeLater(Collect(a, at), b, at, now);
    }
  }

  /** Key `k` holds the response `response`, stored at second `at`. */
  ghost predicate Holds<S>(w: World<S>, k: Key, response: Response, at: int) {
    k in w.records && w.records[k] == Record(response, at)
  }

  /** A stored response survives everything until its window closes. */
  lemma {:induction false} RecordSurvives<S>(w: World<S>, ops: seq<Op<S>>, k: Key, response: Response, at: int)
    requires Holds(w, k, response, at)
    requires forall i :: 0 <= i < |ops| ==> WithinTTL(at, ops[i].now)
    ensures Holds(After(w, ops), k, response, at)
  {
    if ops != [] {
      RecordSurvives(w, ops[..|ops| - 1], k, response, at);
    }
  }

  /** For a fixed key and a clock that does not go back: once a call has executed with a
      success at `stored`, every later call with the key inside the window, whatever happens
      in between, gets that response and changes nothing; the first call after the window
      executes its operation again. */
  lemma {:induction false} OncePerWindow<S>(w: World<S>, k: Key, f: S -> Outcome<S>, tested: Instant,
          stored: Instant, ops: seq<Op<S>>,
                         g: S -> Outcome<S>, now: Instant, stamp: Instant)
    requires Call(w, k, f, tested, stored).1.Executed? && Call(w, k, f, tested, stored).1.response.IsSuccess()
    requires Ordered(ops) && forall i :: 0 <= i < |ops| ==> stored <= ops[i].now && ops[i].End() <= now
    requires Truncated(now) < Truncated(stored) + TTL_SECONDS
    ensures var w' := After(Call(w, k, f, tested, stored).0, ops);
            Call(w', k, g, now, stamp) == (w', Replayed(Call(w, k, f, tested, stored).1.response))
  {
    var (w1, answer) := Call(w, k, f, tested, stored);
    WindowExactly(stored, now);
    RecordSurvives(w1, ops, k, answer.response, Truncated(stored));
  }

  /** Executions with a success for one key are at least a window apart: at least 30 in
      whole seconds, so more than 29 seconds by the clock. */
  lemma {:induction false} ExecutionsAreApart<S>(w: World<S>, k: Key, f: S -> Outcome<S>, tested: Instant,
          stored: Instant, ops: seq<Op<S>>,
                              g: S -> Outcome<S>, now: Instant, stamp: Instant)
    requires Call(w, k, f, tested, stored).1.Executed? && Call(w, k, f, tested, stored).1.response.IsSuccess()
    requires Ordered(ops) && stored <= now && forall i :: 0 <= i < |ops| ==> stored <= ops[i].now && ops[i].End() <= now
    requires !Call(After(Call(w, k, f, tested, stored).0, ops), k, g, now, stamp).1.Replayed?
    ensures Truncated(now) >= Truncated(stored) + TTL_SECONDS && now - stored > 29 * SECOND
  {
    if Truncated(now) < Truncated(stored) + TTL_SECONDS {
      OncePerWindow(w, k, f, tested, stored, ops, g, now, stamp);
    }
    WindowBounds(stored, now);
    WindowExactly(stored, now);
  }

  /** A record stored too long ago is as good as none, also if it was never collected. */
  lemma AfterTheWindow<S>(w: World<S>, k: Key, response: Response, stored: Instant, f: S -> Outcome<S>, now: Instant,
          stamp: Instant)
    requires Holds(w, k, response, Truncated(stored)) && Truncated(now) >= Truncated(stored) + TTL_SECONDS
    ensures !Call(w, k, f, now, stamp).1.Replayed?
    ensures f(w.state).Failed? ==> Call(w, k, f, now, stamp).0 == w
    ensures f(w.state).Done? ==>
              Call(w, k, f, now, stamp).0.state == f(w.state).state &&
              (Holds(Call(w, k, f, now, stamp).0, k, f(w.state).response, Truncated(stamp)) <==>
               200 <= f(w.state).response.status <= 299)
  {
    WindowExactly(stored, now);
  }
}
