/**
  The engine driver: reconciles feed and L1 messages by sequence number, keeps a bounded feed-ahead
  buffer and overlaps the final forkchoice request of one block with the production of the next.

  Block production and the engine tree are parameters: `build` yields the child block of a message
  or fails, `accepts` says whether the payload request can be queued, `canonical` whether the final
  forkchoice of a block succeeds.
*/
module EngineDriver {
  import opened Prelude

  datatype Message = Message(sequence: nat, body: nat)

  datatype Header = Header(number: nat, hash: nat)

  datatype Engine = Engine(
    accepts: (Header, Message) -> bool,
    build: (Header, Message) -> Option<Header>,
    canonical: Header -> bool)

  ghost predicate Sequential(e: Engine) {
    forall tip, m :: e.build(tip, m).Some? ==> e.build(tip, m).value.number == tip.number + 1
  }

  const MAX_PENDING: nat := 50_000

  /** A block whose final forkchoice is still in flight. */
  datatype PendingApplied = PendingApplied(sequence: nat, header: Header)

  /** Traffic between driver and engine tree, in order. */
  datatype Event =
    | AttributesQueued(parent: Header, sequence: nat)
    | BlockInserted(header: Header)
    | FinalQueued(header: Header)
    | FinalSettled(header: Header)

  /** The driver's fields, the blocks it produced, the callbacks it made and its traffic. */
  datatype Driver = Driver(
    tip: Header,
    nextSeq: nat,
    pending: map<nat, Message>,
    inFlight: Option<PendingApplied>,
    built: seq<PendingApplied>,
    applied: seq<nat>,
    events: seq<Event>)

  datatype Step = Step(ok: bool, driver: Driver)

  // ---------------------------------------------------------------- one call

  /** Awaits the queued final forkchoice, if any.  The callback is left to the caller. */
  function Settle(e: Engine, d: Driver): Step {
    if d.inFlight.None? then Step(true, d)
    else
      var h := d.inFlight.value.header;
      Step(e.canonical(h), d.(inFlight := None, events := d.events + [FinalSettled(h)]))
  }

  function Completed(d: Driver): seq<nat> {
    if d.inFlight.None? then [] else [d.inFlight.value.sequence]
  }

  /** Settles and reports, as the paths that build nothing do. */
  function SettleAndReport(e: Engine, d: Driver): Step {
    var s := Settle(e, d);
    if s.ok then Step(true, s.driver.(applied := d.applied + Completed(d))) else s
  }

  /** Produces the block of the next message: queue its payload request, settle the predecessor,
      build, insert, queue the final forkchoice, report the predecessor, advance the cursor. */
  function Apply(e: Engine, d: Driver, m: Message): Step {
    if !e.accepts(d.tip, m) then Step(false, d)
    else
      var queued := d.(events := d.events + [AttributesQueued(d.tip, d.nextSeq)]);
      var s := Settle(e, queued);
      if !s.ok then s
      else
        var h := e.build(d.tip, m);
        if h.None? then Step(false, s.driver)
        else
          Step(true, s.driver.(
                 tip := h.value,
                 nextSeq := d.nextSeq + 1,
                 inFlight := Some(PendingApplied(d.nextSeq, h.value)),
                 built := d.built + [PendingApplied(d.nextSeq, h.value)],
                 applied := d.applied + Completed(d),
                 events := s.driver.events + [BlockInserted(h.value), FinalQueued(h.value)]))
  }

  /** Drains the contiguous feed-ahead buffer. */
  function Drain(e: Engine, d: Driver): Step
    decreases |d.pending|
  {
    if d.nextSeq !in d.pending then Step(true, d)
    else
      var rest := d.pending - {d.nextSeq};
      assert |rest| < |d.pending| by { assert d.pending.Keys == rest.Keys + {d.nextSeq}; }
      var s := Apply(e, d.(pending := rest), d.pending[d.nextSeq]);
      if !s.ok then s else Drain(e, s.driver)
  }

  lemma DrainUnfolds(e: Engine, d: Driver, s: Step)
    requires d.nextSeq in d.pending
    requires s == Apply(e, d.(pending := d.pending - {d.nextSeq}), d.pending[d.nextSeq])
    ensures Drain(e, d) == if !s.ok then s else Drain(e, s.driver)
    ensures s.driver.pending == d.pending - {d.nextSeq} && |s.driver.pending| < |d.pending|
  {
    var rest := d.pending - {d.nextSeq};
    assert d.pending.Keys == rest.Keys + {d.nextSeq};
  }

  /** Discards stragglers below the cursor. */
  function Retain(d: Driver): Driver {
    d.(pending := map k | k in d.pending && k >= d.nextSeq :: d.pending[k])
  }

  /** The end of a call that built blocks. */
  function Tail(e: Engine, d: Driver, deferTail: bool): Step {
    var tail := if deferTail then Step(true, d) else SettleAndReport(e, d);
    if !tail.ok then tail else Step(true, Retain(tail.driver))
  }

  /** Room in the buffer, or not. */
  function Buffer(d: Driver, m: Message): Driver {
    if |d.pending| < MAX_PENDING then d.(pending := d.pending[m.sequence := m]) else d
  }

  function Advance(e: Engine, d: Driver, m: Message, deferTail: bool): Step {
    if m.sequence < d.nextSeq then SettleAndReport(e, d)
    else if m.sequence > d.nextSeq then SettleAndReport(e, Buffer(d, m))
    else
      var first := Apply(e, d, m);
      if !first.ok then first
      else
        var drained := Drain(e, first.driver);
        if !drained.ok then drained else Tail(e, drained.driver, deferTail)
  }

  // ---------------------------------------------------------------- the driver object

  class ArbEngineDriver {
    var tip: Header
    var nextSeq: nat
    var pending: map<nat, Message>
    var pendingApplied: Option<PendingApplied>
    var built: seq<PendingApplied>
    var applied: seq<nat>
    var events: seq<Event>

    function View(): Driver
      reads this
    {
      Driver(tip, nextSeq, pending, pendingApplied, built, applied, events)
    }

    /** The dedup cursor is seeded from the resumed tip; the subtraction saturates. */
    constructor (tip: Header, genesisBlock: nat)
      ensures View() == Driver(tip, (if tip.number < genesisBlock then 0 else tip.number - genesisBlock) + 1, map[],
          None, [], [], [])
    {
      this.tip := tip;
      nextSeq := (if tip.number < genesisBlock then 0 else tip.number - genesisBlock) + 1;
      pending, pendingApplied, built, applied, events := map[], None, [], [], [];
    }

    method SettlePendingApplied(e: Engine) returns (ok: bool, completed: seq<nat>)
      modifies this`pendingApplied, this`events
      ensures Step(ok, View()) == Settle(e, old(View()))
      ensures completed == Completed(old(View()))
    {
      if pendingApplied.None? {
        return true, [];
      }
      var p := pendingApplied.value;
      pendingApplied := None;
      events := events + [FinalSettled(p.header)];
      return e.canonical(p.header), [p.sequence];
    }

    method ApplyOneNative(e: Engine, m: Message) returns (ok: bool, completed: seq<nat>)
      modifies this`tip, this`pendingApplied, this`built, this`events
      ensures var s := Apply(e, old(View()), m);
              && ok == s.ok
              && (ok ==>
                    completed == Completed(old(View())) && View() == s.driver.(nextSeq := nextSeq, applied := applied))
              && (!ok ==> View() == s.driver)
    {
      if !e.accepts(tip, m) {
        return false, [];
      }
      events := events + [AttributesQueued(tip, nextSeq)];
      ok, completed := SettlePendingApplied(e);
      if !ok {
        return;
      }
      var header := e.build(tip, m);
      if header.None? {
        return false, [];
      }
      events := events + [BlockInserted(header.value), FinalQueued(header.value)];
      tip := header.value;
      pendingApplied := Some(PendingApplied(nextSeq, header.value));
      built := built + [PendingApplied(nextSeq, header.value)];
    }

    /** One queued message: produce its block, report the predecessor, move the cursor. */
    method ApplyAndReport(e: Engine, m: Message) returns (ok: bool)
      modifies this
      ensures Step(ok, View()) == Apply(e, old(View()), m)
    {
      var completed: seq<nat>;
      ok, completed := ApplyOneNative(e, m);
      if !ok { return; }
      applied := applied + completed;
      nextSeq := nextSeq + 1;
    }

    method DrainPending(e: Engine) returns (ok: bool)
      modifies this
      ensures Step(ok, View()) == Drain(e, old(View()))
    {
      while nextSeq in pending
        invariant Drain(e, View()) == Drain(e, old(View()))
        decreases |pending|
      {
        ghost var before := View();
        var buffered := pending[nextSeq];
        pending := pending - {nextSeq};
        ok := ApplyAndReport(e, buffered);
        DrainUnfolds(e, before, Step(ok, View()));
        if !ok { return; }
      }
      ok := true;
    }

    method SettleTail(e: Engine) returns (ok: bool)
      modifies this
      ensures Step(ok, View()) == SettleAndReport(e, old(View()))
    {
      var completed: seq<nat>;
      ok, completed := SettlePendingApplied(e);
      if ok { applied := applied + completed; }
    }

    method AdvanceWithApplied(e: Engine, m: Message, deferTail: bool) returns (ok: bool)
      modifies this
      ensures Step(ok, View()) == Advance(e, old(View()), m, deferTail)
    {
      if m.sequence != nextSeq {
        if m.sequence > nextSeq && |pending| < MAX_PENDING {
          pending := pending[m.sequence := m];
        }
        ok := SettleTail(e);
        return;
      }
      ok := ApplyAndReport(e, m);
      if !ok { return; }
      ok := DrainPending(e);
      if !ok { return; }
      if !deferTail {
        ok := SettleTail(e);
        if !ok { return; }
      }
      pending := map k | k in pending && k >= nextSeq :: pending[k];
    }
  }
}
