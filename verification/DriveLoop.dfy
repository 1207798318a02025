/**
  The drive loop: scheduler and driver together, with the finite-run admission gate between them.

  The loop is a state machine.  Its own steps (poll at the top of the loop, hand one message of the
  selected batch to the driver, complete the batch) interleave freely with sends, dropped senders and
  the signal that closes a finite run's L1 input.
*/
module DriveLoop {
  import opened Prelude
  import opened EngineDriver
  import opened EngineDriverRuns
  import opened Ingress

  datatype Mode = Serving | Finite(frontier: nat)

  datatype Admission = Admitted(block: nat) | RejectedAboveFrontier(block: nat, frontier: nat)

  datatype AdmissionError = FrontierBelowGenesis | SequenceOverflow | TipBelowGenesis | NextSequenceOverflow

  // ---------------------------------------------------------------- the admission gate

  function AdmitHandoff(mode: Mode, sequence: nat, genesis: nat): Result<Admission, AdmissionError> {
    var block := sequence + genesis;
    if block >= U64_LIMIT then Err(SequenceOverflow)
    else
      match mode
      case Serving => Ok(Admitted(block))
      case Finite(frontier) =>
        if frontier < genesis then Err(FrontierBelowGenesis)
        else if block > frontier then Ok(RejectedAboveFrontier(block, frontier))
        else Ok(Admitted(block))
  }

  function FiniteMaxSequence(mode: Mode, genesis: nat): Result<Option<nat>, AdmissionError> {
    match mode
    case Serving => Ok(None)
    case Finite(frontier) => if frontier < genesis then Err(FrontierBelowGenesis) else Ok(Some(frontier - genesis))
  }

  function NextDriverSequence(tip: nat, genesis: nat): Result<nat, AdmissionError> {
    if tip < genesis then Err(TipBelowGenesis)
    else if tip - genesis + 1 >= U64_LIMIT then Err(NextSequenceOverflow)
    else Ok(tip - genesis + 1)
  }

  /** The gate and the bound used for closing agree: a message is admitted exactly when it is at or
      below the bound, and never lets a block above the frontier through. */
  lemma {:induction false} GateMatchesBound(frontier: nat, sequence: nat, genesis: nat)
    requires frontier < U64_LIMIT
    ensures FiniteMaxSequence(Finite(frontier), genesis).Ok? ==>
              var max := FiniteMaxSequence(Finite(frontier), genesis).value.value;
              var gate := AdmitHandoff(Finite(frontier), sequence, genesis);
              && (gate.Ok? && gate.value.Admitted? <==> sequence <= max)
              && (gate.Ok? && gate.value.Admitted? ==> gate.value.block == genesis + sequence <= frontier)
              && (gate.Err? ==> gate.error.SequenceOverflow? && sequence > max)
  {
  }

  // ---------------------------------------------------------------- the loop

  /** `hand` is the selected batch not handed over yet, `selected` its source and kind; the rest are
      the loop's history: every L1 message accepted, every one taken from a batch, every driver call. */
  datatype Loop = Loop(
    v: Scheduler,
    d: Driver,
    hand: seq<Message>,
    selected: Option<Batch>,
    closeSignalled: bool,
    stopped: Option<bool>,
    accepted: seq<Message>,
    taken: seq<Message>,
    calls: seq<Call>)

  datatype LoopStep =
    | FeedArrives(m: Message)
    | L1Arrives(m: Message)
    | FeedSendersGone
    | L1SendersGone
    | SignalClose
    | Top
    | HandOver
    | Finish

  function Observe(l: Loop, bound: Option<nat>): Loop {
    if l.closeSignalled && bound.Some? then l.(v := CloseL1(l.v, bound.value)) else l
  }

  function AtTop(l: Loop, genesis: nat, bound: Option<nat>): Loop {
    var next := NextDriverSequence(l.d.tip.number, genesis);
    if next.Err? then l.(stopped := Some(false))
    else
      var o := Observe(l, bound);
      var poll, v := NextBatch(o.v, next.value).0, NextBatch(o.v, next.value).1;
      if poll.Pending? then o.(v := v)
      else if poll.batch.None? then o.(v := v, stopped := Some(true))
      else o.(v := v, hand := poll.batch.value.messages, selected := poll.batch)
  }

  function AtHandOver(e: Engine, l: Loop, mode: Mode, genesis: nat, bound: Option<nat>): Loop
    requires l.hand != []
  {
    var o := Observe(l, bound);
    var m, rest := l.hand[0], l.hand[1..];
    var gate := AdmitHandoff(mode, m.sequence, genesis);
    if gate.Err? then o.(stopped := Some(false))
    else if gate.value.RejectedAboveFrontier? then o.(hand := rest, taken := l.taken + [m])
    else
      var s := Advance(e, l.d, m, rest != []);
      o.(d := s.driver, hand := rest, taken := l.taken + [m], calls := l.calls + [Call(m, rest != [])],
         stopped := if s.ok then None else Some(false))
  }

  function LoopNext(e: Engine, l: Loop, step: LoopStep, mode: Mode, genesis: nat, bound: Option<nat>): Loop {
    match step
    case FeedArrives(m) => if l.v.feed.closed then l
        else l.(v := l.v.(feed := l.v.feed.(queue := l.v.feed.queue + [m])))
    case L1Arrives(m) =>
      if l.v.l1.closed then l
      else l.(v := l.v.(l1 := l.v.l1.(queue := l.v.l1.queue + [m])), accepted := l.accepted + [m])
    case FeedSendersGone => l.(v := l.v.(feed := l.v.feed.(closed := true)))
    case L1SendersGone => l.(v := l.v.(l1 := l.v.l1.(closed := true)))
    case SignalClose => l.(closeSignalled := true)
    case Top => if l.stopped.Some? || l.selected.Some? then l else AtTop(l, genesis, bound)
    case HandOver => if l.stopped.Some? || l.hand == [] then l else AtHandOver(e, l, mode, genesis, bound)
    case Finish =>
      if l.stopped.Some? || l.hand != [] || l.selected.None? then l
      else l.(v := Complete(l.v, l.selected.value.source, l.selected.value.kind), selected := None)
  }

  function LoopRun(e: Engine, l: Loop, steps: seq<LoopStep>, mode: Mode, genesis: nat, bound: Option<nat>): Loop
    decreases |steps|
  {
    if steps == [] then l
    else LoopRun(e, LoopNext(e, l, steps[0], mode, genesis, bound), steps[1..], mode, genesis, bound)
  }

  // ---------------------------------------------------------------- nothing above the frontier

  /** The driver has neither built nor buffered anything above the bound. */
  ghost predicate Within(d: Driver, max: nat) {
    && d.nextSeq <= max + 1
    && (forall k <- d.pending :: k <= max)
    && (forall i :: 0 <= i < |d.built| ==> d.built[i].sequence <= max)
  }

  lemma ApplyWithin(e: Engine, d: Driver, m: Message, max: nat)
    requires Within(d, max) && d.nextSeq <= max
    ensures Within(Apply(e, d, m).driver, max)
  {
  }

  lemma {:induction false} DrainWithin(e: Engine, d: Driver, max: nat)
    requires Within(d, max)
    ensures Within(Drain(e, d).driver, max)
    decreases |d.pending|
  {
    if d.nextSeq in d.pending {
      var rest := d.pending - {d.nextSeq};
      var s := Apply(e, d.(pending := rest), d.pending[d.nextSeq]);
      DrainUnfolds(e, d, s);
      ApplyWithin(e, d.(pending := rest), d.pending[d.nextSeq], max);
      if s.ok { DrainWithin(e, s.driver, max); }
    }
  }

  lemma AdvanceWithin(e: Engine, d: Driver, m: Message, deferTail: bool, max: nat)
    requires Within(d, max) && m.sequence <= max
    ensures Within(Advance(e, d, m, deferTail).driver, max)
  {
    if m.sequence == d.nextSeq {
      ApplyWithin(e, d, m, max);
      DrainWithin(e, Apply(e, d, m).driver, max);
    }
  }

  lemma HandOverWithin(e: Engine, l: Loop, frontier: nat, genesis: nat, bound: Option<nat>)
    requires genesis <= frontier < U64_LIMIT && l.hand != [] && Within(l.d, frontier - genesis)
    ensures Within(AtHandOver(e, l, Finite(frontier), genesis, bound).d, frontier - genesis)
  {
    var m := l.hand[0];
    GateMatchesBound(frontier, m.sequence, genesis);
    if m.sequence <= frontier - genesis {
      AdvanceWithin(e, l.d, m, l.hand[1..] != [], frontier - genesis);
    }
  }

  lemma {:induction false} LoopStaysWithin(e: Engine, l: Loop, steps: seq<LoopStep>, frontier: nat, genesis: nat,
      bound: Option<nat>)
    requires genesis <= frontier < U64_LIMIT && Within(l.d, frontier - genesis)
    ensures Within(LoopRun(e, l, steps, Finite(frontier), genesis, bound).d, frontier - genesis)
    decreases |steps|
  {
    if steps != [] {
      var l' := LoopNext(e, l, steps[0], Finite(frontier), genesis, bound);
      if steps[0].HandOver? && l.stopped.None? && l.hand != [] {
        HandOverWithin(e, l, frontier, genesis, bound);
      }
      LoopStaysWithin(e, l', steps[1..], frontier, genesis, bound);
    }
  }

  /** In any mode and any run the driver's cursor follows its tip and its blocks are numbered by sequence. */
  lemma {:induction false} LoopReconciles(e: Engine, l: Loop, steps: seq<LoopStep>, mode: Mode, genesis: nat,
      bound: Option<nat>)
    requires Sequential(e) && Reconciled(genesis, l.d) && Labelled(genesis, l.d)
    ensures var d := LoopRun(e, l, steps, mode, genesis, bound).d; Reconciled(genesis, d) && Labelled(genesis, d)
    decreases |steps|
  {
    if steps != [] {
      var l' := LoopNext(e, l, steps[0], mode, genesis, bound);
      if steps[0].HandOver? && l.stopped.None? && l.hand != [] {
        AdvanceReconciles(e, genesis, l.d, l.hand[0], l.hand[1..] != []);
      }
      LoopReconciles(e, l', steps[1..], mode, genesis, bound);
    }
  }

  /** In every finite run that starts at or below the frontier, whatever the race between closing and
      batch selection, no block above the frontier is built, not even out of the feed-ahead buffer. */
  lemma {:induction false} NoBlockAboveFrontier(e: Engine, l: Loop, steps: seq<LoopStep>, frontier: nat, genesis: nat,
      bound: Option<nat>)
    requires Sequential(e) && frontier < U64_LIMIT && Reconciled(genesis, l.d) && Labelled(genesis, l.d)
    requires l.d.tip.number <= frontier && forall k <- l.d.pending :: genesis + k <= frontier
    requires forall i :: 0 <= i < |l.d.built| ==> l.d.built[i].header.number <= frontier
    ensures var d := LoopRun(e, l, steps, Finite(frontier), genesis, bound).d;
            && d.tip.number <= frontier
            && (forall i :: 0 <= i < |d.built| ==> d.built[i].header.number <= frontier)
            && (forall k <- d.pending :: genesis + k <= frontier)
  {
    LoopStaysWithin(e, l, steps, frontier, genesis, bound);
    LoopReconciles(e, l, steps, Finite(frontier), genesis, bound);
  }
}
