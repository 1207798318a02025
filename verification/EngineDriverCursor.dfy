/** Where the driver's cursor ends up, whatever the arrival order and however full its buffer gets. */
module EngineDriverCursor {
  import opened EngineDriver
  import opened EngineDriverRuns

  // ---------------------------------------------------------------- how one call moves cursor and buffer

  lemma {:induction false} DrainMoves(e: Engine, d: Driver)
    requires Drain(e, d).ok
    ensures var d' := Drain(e, d).driver;
            && d.nextSeq <= d'.nextSeq
            && (forall s :: d.nextSeq <= s < d'.nextSeq ==> s in d.pending)
            && (forall k :: k in d'.pending <==> k in d.pending && !(d.nextSeq <= k < d'.nextSeq))
            && d'.nextSeq !in d'.pending
    decreases |d.pending|
  {
    if d.nextSeq in d.pending {
      var rest := d.pending - {d.nextSeq};
      assert d.pending.Keys == rest.Keys + {d.nextSeq};
      var s := Apply(e, d.(pending := rest), d.pending[d.nextSeq]);
      DrainMoves(e, s.driver);
    }
  }

  /** The message finds no room: it is neither applied nor buffered. */
  predicate Overflows(d: Driver, m: Message) {
    m.sequence > d.nextSeq && |d.pending| >= MAX_PENDING && m.sequence !in d.pending
  }

  ghost predicate Held(d: Driver, s: nat) {
    s < d.nextSeq || s in d.pending
  }

  /** One successful call holds on to what it held, adds its message unless it overflows, and moves the
      cursor only over held messages. */
  lemma {:induction false} AdvanceMoves(e: Engine, d: Driver, m: Message, deferTail: bool)
    requires Advance(e, d, m, deferTail).ok && d.nextSeq !in d.pending
    ensures var d' := Advance(e, d, m, deferTail).driver;
            && d.nextSeq <= d'.nextSeq && d'.nextSeq !in d'.pending
            && (m.sequence == d.nextSeq ==> d.nextSeq < d'.nextSeq)
            && (forall s :: Held(d', s) <==> Held(d, s) || (s == m.sequence && !Overflows(d, m)))
  {
    if m.sequence == d.nextSeq {
      var first := Apply(e, d, m);
      DrainMoves(e, first.driver);
      var d' := Advance(e, d, m, deferTail).driver;
      var drained := Drain(e, first.driver).driver;
      assert first.driver.pending == d.pending;
      forall s: nat ensures Held(d', s) <==> Held(d, s) || s == m.sequence {
        assert s in d'.pending <==> s in drained.pending && s >= d'.nextSeq;
      }
    }
  }

  // ---------------------------------------------------------------- without losing anything

  function Delivered(calls: seq<Call>): set<nat> {
    set i | 0 <= i < |calls| :: calls[i].message.sequence
  }

  /** Sequences that overflowed the buffer somewhere in the run. */
  function Missed(e: Engine, d: Driver, calls: seq<Call>): set<nat>
    decreases |calls|
  {
    if calls == [] then {}
    else
      var s := Advance(e, d, calls[0].message, calls[0].deferTail);
      (if Overflows(d, calls[0].message) then {calls[0].message.sequence} else {}) +
      (if s.ok then Missed(e, s.driver, calls[1..]) else {})
  }

  predicate LeastUndelivered(start: nat, calls: seq<Call>, c: nat) {
    && start <= c && c !in Delivered(calls)
    && forall s :: start <= s < c ==> s in Delivered(calls)
  }

  lemma DeliveredUnfolds(calls: seq<Call>)
    requires calls != []
    ensures Delivered(calls) == {calls[0].message.sequence} + Delivered(calls[1..])
  {
    var l, r := Delivered(calls), {calls[0].message.sequence} + Delivered(calls[1..]);
    forall s ensures s in l <==> s in r {
      if s in l {
        var i :| 0 <= i < |calls| && calls[i].message.sequence == s;
        if i > 0 { assert calls[1..][i - 1].message.sequence == s; }
      }
      if s in Delivered(calls[1..]) {
        var i :| 0 <= i < |calls[1..]| && calls[1..][i].message.sequence == s;
        assert calls[i + 1].message.sequence == s;
      }
    }
  }

  /** Over a successful run: held at the end means held before or delivered, and everything delivered
      is held at the end unless it was missed. */
  lemma {:induction false} RunHolds(e: Engine, d: Driver, calls: seq<Call>)
    requires Run(e, d, calls).ok && d.nextSeq !in d.pending
    ensures var d' := Run(e, d, calls).driver;
            && d.nextSeq <= d'.nextSeq && d'.nextSeq !in d'.pending
            && (forall s :: Held(d, s) ==> Held(d', s))
            && (forall s :: Held(d', s) ==> Held(d, s) || s in Delivered(calls))
            && (forall s <- Delivered(calls) :: Held(d', s) || s in Missed(e, d, calls))
            && Missed(e, d, calls) <= Delivered(calls)
    decreases |calls|
  {
    if calls != [] {
      AdvanceMoves(e, d, calls[0].message, calls[0].deferTail);
      DeliveredUnfolds(calls);
      RunHolds(e, Advance(e, d, calls[0].message, calls[0].deferTail).driver, calls[1..]);
    }
  }

  /** The final cursor is the least undelivered sequence exactly when the message at that cursor never
      overflowed the buffer; in particular it always is when nothing overflowed. */
  lemma {:induction false} FinalCursor(e: Engine, d: Driver, calls: seq<Call>)
    requires Run(e, d, calls).ok && d.pending == map[]
    ensures var c := Run(e, d, calls).driver.nextSeq;
            LeastUndelivered(d.nextSeq, calls, c) <==> c !in Missed(e, d, calls)
    ensures Missed(e, d, calls) == {} ==> LeastUndelivered(d.nextSeq, calls, Run(e, d, calls).driver.nextSeq)
  {
    RunHolds(e, d, calls);
    var d' := Run(e, d, calls).driver;
    forall s | d.nextSeq <= s < d'.nextSeq ensures s in Delivered(calls) {
      assert Held(d', s) && !Held(d, s);
    }
    assert !Held(d', d'.nextSeq);
  }

  // ---------------------------------------------------------------- the ordered L1 stream

  /** The sequences `a`, `a + 1`, ..., `b - 1` arrive in this order, with anything in between. */
  ghost predicate Carries(calls: seq<Call>, a: nat, b: nat)
    decreases |calls|
  {
    a >= b ||
    (calls != [] &&
     (Carries(calls[1..], a, b) || (calls[0].message.sequence == a && Carries(calls[1..], a + 1, b))))
  }

  /** An ordered L1 stream that starts at or below the cursor drives it to the stream's end, even when
      the feed-ahead buffer overflows. */
  lemma {:induction false} OrderedStreamReachesItsEnd(e: Engine, d: Driver, calls: seq<Call>, a: nat, b: nat)
    requires Run(e, d, calls).ok && d.nextSeq !in d.pending
    requires a <= d.nextSeq && Carries(calls, a, b)
    ensures b <= Run(e, d, calls).driver.nextSeq
    decreases |calls|
  {
    if calls == [] {
    } else {
      AdvanceMoves(e, d, calls[0].message, calls[0].deferTail);
      var d' := Advance(e, d, calls[0].message, calls[0].deferTail).driver;
      if a >= b {
        OrderedStreamReachesItsEnd(e, d', calls[1..], a, b);
      } else if Carries(calls[1..], a, b) {
        OrderedStreamReachesItsEnd(e, d', calls[1..], a, b);
      } else {
        OrderedStreamReachesItsEnd(e, d', calls[1..], a + 1, b);
      }
    }
  }
}
