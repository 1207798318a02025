/** First-wins deduplication of racing feed sources with a conservative reconnect cursor. */
module SequenceRace {
  import opened Prelude

  const MAX_RECENT: nat := 16_384

  datatype Observation = First | Duplicate(winnerReadyAt: nat) | Stale

  /** `recent` maps a sequence to the time its first copy was ready. */
  datatype Race = Race(nextResume: u64, recent: map<u64, nat>)

  // ---------------------------------------------------------------- one observation

  /** The cursor skips over everything recent, stopping at the last `u64`. */
  function Skip(recent: map<u64, nat>, next: u64): (r: u64)
    ensures next <= r && (forall s :: next <= s < r ==> s in recent)
    ensures r in recent ==> r + 1 == U64_LIMIT
    decreases U64_LIMIT - next
  {
    if next in recent && next + 1 < U64_LIMIT then Skip(recent, next + 1) else next
  }

  predicate IsLeast(x: u64, s: set<u64>) {
    x in s && forall y :: y in s ==> x <= y
  }

  lemma {:induction false} LeastExists(s: set<u64>)
    requires s != {}
    ensures exists x :: IsLeast(x, s)
  {
    var x :| x in s;
    var rest := s - {x};
    if rest == {} {
      assert s == {x};
      assert IsLeast(x, s);
    } else {
      LeastExists(rest);
      var z :| IsLeast(z, rest);
      assert IsLeast(if x <= z then x else z, s) by {
        assert forall y :: y in s ==> y == x || y in rest;
      }
    }
  }

  ghost function Least(s: set<u64>): (x: u64)
    requires s != {}
    ensures IsLeast(x, s)
  {
    LeastExists(s);
    var x :| IsLeast(x, s);
    x
  }

  method LeastKey(recent: map<u64, nat>) returns (x: u64)
    requires recent.Keys != {}
    ensures x == Least(recent.Keys)
  {
    var keys := recent.Keys;
    x :| x in keys;
    var todo := keys - {x};
    while todo != {}
      invariant x in keys && todo <= keys && forall y :: y in keys && y !in todo ==> x <= y
      decreases todo
    {
      var y :| y in todo;
      if y < x { x := y; }
      todo := todo - {y};
    }
    assert IsLeast(x, keys);
  }

  /** Oldest sequences go first until the bound is met. */
  ghost function Evict(recent: map<u64, nat>): (r: map<u64, nat>)
    ensures |r| <= MAX_RECENT && r.Keys <= recent.Keys
    ensures forall s <- r :: r[s] == recent[s]
    decreases |recent|
  {
    if |recent| <= MAX_RECENT then recent
    else
      assert recent.Keys != {};
      var rest := recent - {Least(recent.Keys)};
      assert recent.Keys == rest.Keys + {Least(recent.Keys)};
      Evict(rest)
  }

  lemma EvictOne(recent: map<u64, nat>)
    requires |recent| > MAX_RECENT
    ensures recent.Keys != {}
    ensures var rest := recent - {Least(recent.Keys)}; Evict(recent) == Evict(rest) && |rest| < |recent|
  {
    assert recent.Keys != {};
    var rest := recent - {Least(recent.Keys)};
    assert recent.Keys == rest.Keys + {Least(recent.Keys)};
  }

  ghost function Observe(race: Race, sequence: u64, readyAt: nat): (Observation, Race) {
    if sequence in race.recent then (Duplicate(race.recent[sequence]), race)
    else if sequence < race.nextResume then (Stale, race)
    else
      var recent := race.recent[sequence := readyAt];
      (First, Race(Skip(recent, race.nextResume), Evict(recent)))
  }

  class SequenceRaceState {
    var nextResume: u64
    var recent: map<u64, nat>

    ghost function View(): Race
      reads this
    {
      Race(nextResume, recent)
    }

    constructor (nextResume: u64)
      ensures View() == Race(nextResume, map[])
    {
      this.nextResume, recent := nextResume, map[];
    }

    method PopFirst()
      requires recent.Keys != {}
      modifies this`recent
      ensures recent == old(recent) - {Least(old(recent).Keys)}
    {
      var x := LeastKey(recent);
      recent := recent - {x};
    }

    method ObserveSequence(sequence: u64, readyAt: nat) returns (o: Observation)
      modifies this
      ensures (o, View()) == Observe(old(View()), sequence, readyAt)
    {
      if sequence in recent {
        return Duplicate(recent[sequence]);
      }
      if sequence < nextResume {
        return Stale;
      }
      recent := recent[sequence := readyAt];
      ghost var all := recent;
      while nextResume in recent && nextResume + 1 < U64_LIMIT
        invariant recent == all && Skip(recent, nextResume) == Skip(all, old(nextResume))
        decreases U64_LIMIT - nextResume
      {
        nextResume := nextResume + 1;
      }
      while |recent| > MAX_RECENT
        invariant Evict(recent) == Evict(all)
        invariant nextResume == Skip(all, old(nextResume))
        decreases |recent|
      {
        EvictOne(recent);
        PopFirst();
      }
      return First;
    }
  }

  // ---------------------------------------------------------------- eviction

  function AtOrAbove(recent: map<u64, nat>, cursor: u64): set<u64> {
    set s | s in recent && s >= cursor
  }

  lemma LeastIsBelow(recent: map<u64, nat>, least: u64, cursor: u64)
    requires IsLeast(least, recent.Keys) && |AtOrAbove(recent, cursor)| < |recent|
    ensures least < cursor
  {
    if least >= cursor {
      assert forall s <- recent.Keys :: s in AtOrAbove(recent, cursor);
      SubsetSize(recent.Keys, AtOrAbove(recent, cursor));
    }
  }

  /** Eviction spares everything at or above a cursor exactly when that fits the bound. */
  lemma {:induction false} EvictionSpares(recent: map<u64, nat>, cursor: u64)
    ensures |AtOrAbove(recent, cursor)| <= MAX_RECENT <==> AtOrAbove(Evict(recent), cursor) == AtOrAbove(recent, cursor)
    decreases |recent|
  {
    SubsetSize(AtOrAbove(Evict(recent), cursor), Evict(recent).Keys);
    if |recent| > MAX_RECENT {
      EvictOne(recent);
      var least := Least(recent.Keys);
      var rest := recent - {least};
      EvictionSpares(rest, cursor);
      if |AtOrAbove(recent, cursor)| <= MAX_RECENT {
        LeastIsBelow(recent, least, cursor);
        assert AtOrAbove(rest, cursor) == AtOrAbove(recent, cursor);
      }
    }
  }

  lemma {:induction false} SubsetSize(s: set<u64>, t: set<u64>)
    requires s <= t
    ensures |s| <= |t|
  {
    if s != {} {
      var x :| x in s;
      SubsetSize(s - {x}, t - {x});
    }
  }

  // ---------------------------------------------------------------- runs

  datatype Copy = Copy(sequence: u64, readyAt: nat)

  /** The race after some copies, with the sequences forwarded, oldest first. */
  datatype History = History(race: Race, forwarded: seq<u64>)

  ghost function See(h: History, c: Copy): History {
    var o, race := Observe(h.race, c.sequence, c.readyAt).0, Observe(h.race, c.sequence, c.readyAt).1;
    History(race, if o.First? then h.forwarded + [c.sequence] else h.forwarded)
  }

  ghost function SeeAll(h: History, copies: seq<Copy>): History
    decreases |copies|
  {
    if copies == [] then h else SeeAll(See(h, copies[0]), copies[1..])
  }

  /** After this copy, what is retained at or above the new cursor fits the bound. */
  ghost predicate Fits(h: History, c: Copy) {
    Observe(h.race, c.sequence, c.readyAt).0.First? ==>
      var recent := h.race.recent[c.sequence := c.readyAt];
      |AtOrAbove(recent, Skip(recent, h.race.nextResume))| <= MAX_RECENT
  }

  ghost predicate AlwaysFits(h: History, copies: seq<Copy>)
    decreases |copies|
  {
    copies != [] ==> Fits(h, copies[0]) && AlwaysFits(See(h, copies[0]), copies[1..])
  }

  /** The cursor started at `start` and has only passed forwarded sequences. */
  ghost predicate Conservative(start: u64, h: History) {
    && start <= h.race.nextResume
    && (forall s: u64 :: start <= s < h.race.nextResume ==> s in h.forwarded)
    && (forall s <- h.race.recent :: s in h.forwarded)
  }

  ghost predicate Distinct(s: seq<u64>) {
    forall i, j :: 0 <= i < j < |s| ==> s[i] != s[j]
  }

  /** Every forwarded sequence would be recognised again. */
  ghost predicate Remembered(h: History) {
    forall s <- h.forwarded :: s < h.race.nextResume || s in h.race.recent
  }

  /** The cursor is monotone and never passes a sequence that was not forwarded. */
  lemma SeeIsConservative(start: u64, h: History, c: Copy)
    requires Conservative(start, h)
    ensures Conservative(start, See(h, c)) && h.race.nextResume <= See(h, c).race.nextResume
  {
    var h' := See(h, c);
    if Observe(h.race, c.sequence, c.readyAt).0.First? {
      forall s: u64 | start <= s < h'.race.nextResume ensures s in h'.forwarded {
        if s >= h.race.nextResume {
          assert s in h.race.recent[c.sequence := c.readyAt];
        }
      }
    }
  }

  lemma {:induction false} RunIsConservative(start: u64, h: History, copies: seq<Copy>)
    requires Conservative(start, h)
    ensures Conservative(start, SeeAll(h, copies)) && h.race.nextResume <= SeeAll(h, copies).race.nextResume
    decreases |copies|
  {
    if copies != [] {
      SeeIsConservative(start, h, copies[0]);
      RunIsConservative(start, See(h, copies[0]), copies[1..]);
    }
  }

  /** A copy is remembered exactly when what is retained at or above the cursor fits the bound. */
  lemma {:induction false} SeeRemembersIff(start: u64, h: History, c: Copy)
    requires Conservative(start, h) && Remembered(h)
    ensures Remembered(See(h, c)) <==> Fits(h, c)
  {
    if Observe(h.race, c.sequence, c.readyAt).0.First? {
      var recent := h.race.recent[c.sequence := c.readyAt];
      var cursor := Skip(recent, h.race.nextResume);
      var h' := See(h, c);
      EvictionSpares(recent, cursor);
      if Fits(h, c) {
        forall s | s in h'.forwarded ensures s < cursor || s in h'.race.recent {
          if s >= cursor { assert s in AtOrAbove(recent, cursor); }
        }
      }
      if Remembered(h') {
        forall s | s in AtOrAbove(recent, cursor) ensures s in AtOrAbove(Evict(recent), cursor) {
          assert s in h'.forwarded;
        }
      }
    }
  }

  /** As long as it fits, every sequence is forwarded at most once. */
  lemma {:induction false} AtMostOnce(start: u64, h: History, copies: seq<Copy>)
    requires Conservative(start, h) && Remembered(h) && Distinct(h.forwarded) && AlwaysFits(h, copies)
    ensures Distinct(SeeAll(h, copies).forwarded)
    decreases |copies|
  {
    if copies != [] {
      SeeIsConservative(start, h, copies[0]);
      SeeRemembersIff(start, h, copies[0]);
      AtMostOnce(start, See(h, copies[0]), copies[1..]);
    }
  }

  /** The first copy that does not fit makes some sequence forwardable again. */
  lemma {:induction false} OverflowForwardsAgain(start: u64, h: History, c: Copy) returns (again: Copy)
    requires Conservative(start, h) && Remembered(h) && !Fits(h, c)
    ensures !Distinct(See(See(h, c), again).forwarded)
  {
    SeeRemembersIff(start, h, c);
    var h' := See(h, c);
    var s :| s in h'.forwarded && !(s < h'.race.nextResume || s in h'.race.recent);
    again := Copy(s, 0);
    var i :| 0 <= i < |h'.forwarded| && h'.forwarded[i] == s;
    var all := See(h', again).forwarded;
    assert all == h'.forwarded + [s];
    assert all[i] == all[|all| - 1];
  }

  // ---------------------------------------------------------------- the coordinator

  /** The coordinator publishes the cursor, then sends: `inFlight` is between the two. */
  datatype Coordinator = Coordinator(h: History, published: u64, sent: seq<u64>, inFlight: Option<u64>, stopped: bool)

  datatype CoordinatorStep = Take(c: Copy) | SendCompletes | SendFails

  ghost function CoordinatorNext(k: Coordinator, step: CoordinatorStep): Coordinator {
    match step
    case Take(c) =>
      if k.stopped || k.inFlight.Some? then k
      else
        var h := See(k.h, c);
        if h.forwarded == k.h.forwarded then k.(h := h)
        else k.(h := h, published := h.race.nextResume, inFlight := Some(c.sequence))
    case SendCompletes => if k.inFlight.None? || k.stopped then k
        else k.(sent := k.sent + [k.inFlight.value], inFlight := None)
    case SendFails => if k.inFlight.None? then k else k.(stopped := true)
  }

  ghost function CoordinatorRun(k: Coordinator, steps: seq<CoordinatorStep>): Coordinator
    decreases |steps|
  {
    if steps == [] then k else CoordinatorRun(CoordinatorNext(k, steps[0]), steps[1..])
  }

  /** Everything the race forwarded was sent, but for the one message in flight. */
  ghost predicate Coordinated(start: u64, k: Coordinator) {
    && Conservative(start, k.h)
    && k.published == k.h.race.nextResume
    && k.h.forwarded == k.sent + (if k.inFlight.None? then [] else [k.inFlight.value])
  }

  /** The published cursor has not passed any sequence that is still to be sent. */
  ghost predicate NeverAhead(start: u64, k: Coordinator) {
    forall s: u64 :: start <= s < k.published ==> s in k.sent
  }

  lemma {:induction false} CoordinatorKeeps(start: u64, k: Coordinator, steps: seq<CoordinatorStep>)
    requires Coordinated(start, k)
    ensures Coordinated(start, CoordinatorRun(k, steps)) && k.published <= CoordinatorRun(k, steps).published
    decreases |steps|
  {
    if steps != [] {
      if steps[0].Take? { SeeIsConservative(start, k.h, steps[0].c); }
      CoordinatorKeeps(start, CoordinatorNext(k, steps[0]), steps[1..]);
    }
  }

  /** The published cursor is ahead of the output exactly while the message in flight lies below it and
      has not been sent before. */
  lemma {:induction false} PublishedAgainstSent(start: u64, k: Coordinator)
    requires Coordinated(start, k)
    ensures NeverAhead(start, k) <==>
        !(k.inFlight.Some? && start <= k.inFlight.value < k.published && k.inFlight.value !in k.sent)
  {
    if !(k.inFlight.Some? && start <= k.inFlight.value < k.published && k.inFlight.value !in k.sent) {
      forall s: u64 | start <= s < k.published ensures s in k.sent {
        assert s in k.h.forwarded;
      }
    }
  }

  /** It does happen: the very next expected message is published as passed before it is sent. */
  lemma {:induction false} PublishedBeforeSent(start: u64, readyAt: nat)
    requires start + 1 < U64_LIMIT
    ensures var k := Coordinator(History(Race(start, map[]), []), start, [], None, false);
            Coordinated(start, k) && !NeverAhead(start, CoordinatorNext(k, Take(Copy(start, readyAt))))
  {
    var k := Coordinator(History(Race(start, map[]), []), start, [], None, false);
    var k' := CoordinatorNext(k, Take(Copy(start, readyAt)));
    assert k'.h.forwarded == [start];
    var recent: map<u64, nat> := map[start := readyAt];
    assert start in recent && start + 1 !in recent;
    assert Skip(recent, start) == start + 1;
    assert k'.published == start + 1 && start !in k'.sent;
  }
}
