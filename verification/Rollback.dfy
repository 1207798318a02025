/** Undoing the newest entries of a log, for any state and any way of undoing one entry. */
module Rollback {

  /** The state once every entry but the first `n` is undone, newest first. */
  function Back<S, B>(undo: (S, B) -> S, s: S, log: seq<B>, n: nat): S
    requires n <= |log|
    decreases |log|
  {
    if n == |log| then s else Back(undo, undo(s, log[|log| - 1]), log[..|log| - 1], n)
  }

  lemma BackOne<S, B>(undo: (S, B) -> S, s: S, was: S, log: seq<B>, init: seq<B>, last: B, n: nat)
    requires |log| > 0 && log[|log| - 1] == last && log[..|log| - 1] == init && n <= |init| && undo(s, last) == was
    ensures Back(undo, s, log, n) == Back(undo, was, init, n)
  {
  }

  /** Going back in two steps is going back in one. */
  lemma {:induction false} BackTwice<S, B>(undo: (S, B) -> S, s: S, log: seq<B>, kept: nat, n: nat)
    requires n <= kept <= |log|
    ensures Back(undo, Back(undo, s, log, kept), log[..kept], n) == Back(undo, s, log, n)
    decreases |log|
  {
    if kept == |log| {
      assert log[..kept] == log;
    } else {
      var init := log[..|log| - 1];
      assert init[..kept] == log[..kept];
      BackTwice(undo, undo(s, log[|log| - 1]), init, kept, n);
    }
  }

  /** All entries undone, written from the oldest one. */
  function All<S, B>(undo: (S, B) -> S, s: S, log: seq<B>): S {
    if log == [] then s else undo(All(undo, s, log[1..]), log[0])
  }

  lemma {:induction false} AllLast<S, B>(undo: (S, B) -> S, s: S, log: seq<B>, init: seq<B>)
    requires log != [] && init == log[..|log| - 1]
    ensures All(undo, s, log) == All(undo, undo(s, log[|log| - 1]), init)
    decreases |log|
  {
    if |log| == 1 {
      assert log[1..] == [];
    } else {
      assert log[1..][..|log| - 2] == init[1..] && log[1..][|log| - 2] == log[|log| - 1];
      AllLast(undo, s, log[1..], init[1..]);
    }
  }

  lemma {:induction false} BackIsAll<S, B>(undo: (S, B) -> S, s: S, log: seq<B>, n: nat)
    requires n <= |log|
    ensures Back(undo, s, log, n) == All(undo, s, log[n..])
    decreases |log|
  {
    if n < |log| {
      var init := log[..|log| - 1];
      BackIsAll(undo, undo(s, log[|log| - 1]), init, n);
      assert log[n..][..|log| - 1 - n] == init[n..] && log[n..][|log| - 1 - n] == log[|log| - 1];
      AllLast(undo, s, log[n..], init[n..]);
    }
  }

  // ---------------------------------------------------------------- a property along the way

  /** `ok` holds of the state at `number` and of every state on the way back, one number lower each. */
  ghost predicate Along<S, B>(ok: (nat, S) -> bool, undo: (S, B) -> S, s: S, log: seq<B>, number: nat)
    decreases |log|
  {
    && ok(number, s)
    && (log != [] ==> number > 0 && Along(ok, undo, undo(s, log[|log| - 1]), log[..|log| - 1], number - 1))
  }

  lemma AlongOne<S, B>(ok: (nat, S) -> bool, undo: (S, B) -> S, s: S, was: S, log: seq<B>, init: seq<B>, last: B,
      number: nat)
    requires |log| > 0 && log[|log| - 1] == last && log[..|log| - 1] == init && undo(s, last) == was
    requires number > 0 && ok(number, s) && Along(ok, undo, was, init, number - 1)
    ensures Along(ok, undo, s, log, number)
  {
  }

  /** It still holds along what is left after going back. */
  lemma {:induction false} AlongBack<S, B>(ok: (nat, S) -> bool, undo: (S, B) -> S, s: S, log: seq<B>, number: nat,
      n: nat)
    requires Along(ok, undo, s, log, number) && n <= |log|
    ensures |log| - n <= number && Along(ok, undo, Back(undo, s, log, n), log[..n], number - (|log| - n))
    decreases |log|
  {
    if n == |log| {
      assert log[..n] == log;
    } else {
      var init := log[..|log| - 1];
      assert init[..n] == log[..n];
      AlongBack(ok, undo, undo(s, log[|log| - 1]), init, number - 1, n);
    }
  }

  lemma {:induction false} AlongWeaker<S(!new), B>(ok: (nat, S) -> bool, fine: (nat, S) -> bool, undo: (S, B) -> S,
      s: S, log: seq<B>, number: nat)
    requires Along(ok, undo, s, log, number)
    requires forall n: nat, t: S :: n <= number && ok(n, t) ==> fine(n, t)
    ensures Along(fine, undo, s, log, number)
    decreases |log|
  {
    if log != [] {
      AlongWeaker(ok, fine, undo, undo(s, log[|log| - 1]), log[..|log| - 1], number - 1);
    }
  }

  // ---------------------------------------------------------------- adding entries

  /** Entry `i` of `newer` leads to a fine state, and undoing it leads back. */
  ghost predicate Leads<S, B>(ok: (nat, S) -> bool, undo: (S, B) -> S, at: nat -> S, newer: seq<B>, number: nat, i: nat)
    requires i < |newer|
  {
    ok(number + i + 1, at(i + 1)) && undo(at(i + 1), newer[i]) == at(i)
  }

  lemma OneAdded<B>(older: seq<B>, newer: seq<B>, j: nat)
    requires j < |newer|
    ensures var log := older + newer[..j + 1];
            && |log| == |older| + j + 1 && log[|log| - 1] == newer[j] && log[..|log| - 1] == older + newer[..j]
  {
  }

  lemma {:induction false} AlongAdded<S, B>(ok: (nat, S) -> bool, undo: (S, B) -> S, at: nat -> S,
      older: seq<B>, newer: seq<B>, number: nat, j: nat)
    requires j <= |newer| && Along(ok, undo, at(0), older, number)
    requires forall i: nat :: i < |newer| ==> Leads(ok, undo, at, newer, number, i)
    ensures Along(ok, undo, at(j), older + newer[..j], number + j)
    decreases j
  {
    if j == 0 {
      assert older + newer[..0] == older;
    } else {
      AlongAdded(ok, undo, at, older, newer, number, j - 1);
      assert Leads(ok, undo, at, newer, number, j - 1);
      OneAdded(older, newer, j - 1);
      AlongOne(ok, undo, at(j), at(j - 1), older + newer[..j], older + newer[..j - 1], newer[j - 1], number + j);
    }
  }

  /** Going back past the added entries goes on from the state they were added to. */
  lemma {:induction false} BackAdded<S, B>(ok: (nat, S) -> bool, undo: (S, B) -> S, at: nat -> S, older: seq<B>,
      newer: seq<B>, number: nat, j: nat, n: nat)
    requires j <= |newer| && n <= |older|
    requires forall i: nat :: i < |newer| ==> Leads(ok, undo, at, newer, number, i)
    ensures Back(undo, at(j), older + newer[..j], n) == Back(undo, at(0), older, n)
    decreases j
  {
    if j == 0 {
      assert older + newer[..0] == older;
    } else {
      BackAdded(ok, undo, at, older, newer, number, j - 1, n);
      assert Leads(ok, undo, at, newer, number, j - 1);
      OneAdded(older, newer, j - 1);
      BackOne(undo, at(j), at(j - 1), older + newer[..j], older + newer[..j - 1], newer[j - 1], n);
    }
  }
}
