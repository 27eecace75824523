/**
 * The upload-transaction counter of app.js: `transactionMap` maps a
 * transaction id to a `{length, remains}` record. Records are created lazily,
 * `remains` is seeded from `length` only while the stored length is 0, and a
 * completion decrements `remains`, removing the record and reporting closure
 * once it falls to 0 or below. Every operation ignores an `undefined` id.
 *
 * The source clears a record by assigning `undefined` to its slot; every
 * lookup treats that slot as absent, so the model removes the key.
 */
module Transactions {
  import opened Env

  /** `length` is the announced number of parts; `remains` the parts still expected. */
  datatype Txn = Txn(length: int, remains: int)

  type TxnMap = map<string, Txn>

  /** The record an unknown id gets on first lookup. */
  const Blank := Txn(0, 0)

  /** The map after an operation together with what the operation returned. */
  datatype Step<T> = Step(state: TxnMap, value: T)

  /** The map after a run of operations together with what each returned, in order. */
  datatype Trace<T> = Trace(state: TxnMap, outputs: seq<T>)

  /** The parts still expected for `k`; an absent id reads as the blank record. */
  function Remaining(m: TxnMap, k: string): int {
    if k in m then m[k].remains else Blank.remains
  }

  /** The record stored for `k`, if any. */
  function Lookup(m: TxnMap, k: string): Option<Txn> {
    if k in m then Some(m[k]) else None
  }

  /** `getTransactionByTransactionId`: the record for the id, created blank when missing. */
  function Get(m: TxnMap, key: Option<string>): (r: Step<Option<Txn>>)
    ensures key.None? ==> r.state == m && r.value.None?
    ensures key.Some? ==> key.value in r.state && r.value == Some(r.state[key.value])
    ensures key.Some? && key.value in m ==> r.state == m
    ensures key.Some? && key.value !in m ==> r.state[key.value] == Blank
    ensures key.Some? ==> r.state - {key.value} == m - {key.value}
  {
    match key
    case None => Step(m, None)
    case Some(k) =>
      if k in m then Step(m, Some(m[k]))
      else Step(m[k := Blank], Some(Blank))
  }

  /**
   * `setTransactionByTransactionId`: stores the announced length; `remains`
   * is (re)seeded from it only while the stored length is 0, so a repeated
   * announcement never resets progress.
   */
  function SetLength(m: TxnMap, key: Option<string>, length: Option<int>): (r: TxnMap)
    ensures key.None? || length.None? ==> r == m
    ensures key.Some? && length.Some? ==>
              && key.value in r
              && r[key.value].length == length.value
              && r[key.value].remains
                 == (if key.value in m && m[key.value].length != 0 then m[key.value].remains else length.value)
              && r - {key.value} == m - {key.value}
  {
    if key.None? || length.None? then m
    else
      var item := Get(m, key);
      var t := item.value.value;
      var remains := if t.length == 0 then length.value else t.remains;
      item.state[key.value := Txn(length.value, remains)]
  }

  /** `removeItemByTransactionId`: the id no longer has a record. */
  function Remove(m: TxnMap, key: Option<string>): (r: TxnMap)
    ensures key.None? ==> r == m
    ensures key.Some? ==> key.value !in r && r - {key.value} == m - {key.value}
  {
    match key
    case None => m
    case Some(k) => m - {k}
  }

  /**
   * `completeTransactionItem`: decrements `remains` of the (lazily created)
   * record; at 0 or below the record is removed and `true` returned. An
   * unknown or already closed id is created blank, drops to -1 and so
   * reports closure again.
   */
  function Complete(m: TxnMap, key: Option<string>): (r: Step<Option<bool>>)
    ensures key.None? ==> r.state == m && r.value.None?
    ensures key.Some? ==> r.value.Some?
    ensures key.Some? ==> (r.value.value <==> Remaining(m, key.value) <= 1)
    ensures key.Some? && r.value.value ==> key.value !in r.state
    ensures key.Some? && !r.value.value ==>
              && key.value in m && key.value in r.state
              && r.state[key.value] == Txn(m[key.value].length, m[key.value].remains - 1)
    ensures key.Some? ==> r.state - {key.value} == m - {key.value}
  {
    match key
    case None => Step(m, None)
    case Some(k) =>
      var item := Get(m, key);
      var t := item.value.value;
      var decremented := Txn(t.length, t.remains - 1);
      var state := item.state[k := decremented];
      if decremented.remains <= 0 then Step(Remove(state, key), Some(true))
      else Step(state, Some(false))
  }

  /** `n` successive completions of the same id, with the closure flag of each. */
  function CompleteTimes(m: TxnMap, k: string, n: nat): Trace<bool>
    decreases n
  {
    if n == 0 then Trace(m, [])
    else
      var s := Complete(m, Some(k));
      var rest := CompleteTimes(s.state, k, n - 1);
      Trace(rest.state, [s.value.value] + rest.outputs)
  }

  /**
   * The whole schedule of closures for one id: call `i` (from 0) reports
   * closure exactly when `i + 1` reaches the remaining count, so the first
   * closure comes on call `remains` and every later call closes again.
   */
  lemma {:induction false} ClosureSchedule(m: TxnMap, k: string, n: nat)
    ensures |CompleteTimes(m, k, n).outputs| == n
    ensures forall i :: 0 <= i < n ==> CompleteTimes(m, k, n).outputs[i] == (i + 1 >= Remaining(m, k))
    ensures n == 0 ==> CompleteTimes(m, k, n).state == m
    ensures n > 0 && Remaining(m, k) > n ==>
              && k in m && k in CompleteTimes(m, k, n).state
              && CompleteTimes(m, k, n).state[k] == Txn(m[k].length, m[k].remains - n)
    ensures n > 0 && Remaining(m, k) <= n ==> k !in CompleteTimes(m, k, n).state
    ensures CompleteTimes(m, k, n).state - {k} == m - {k}
    decreases n
  {
    if n > 0 {
      var s := Complete(m, Some(k));
      var rest := CompleteTimes(s.state, k, n - 1);
      ClosureSchedule(s.state, k, n - 1);
      var out := CompleteTimes(m, k, n).outputs;
      assert out == [s.value.value] + rest.outputs;
      if s.value.value {
        assert Remaining(s.state, k) == 0;
      } else {
        assert Remaining(s.state, k) == Remaining(m, k) - 1;
      }
      forall i | 0 <= i < n
        ensures out[i] == (i + 1 >= Remaining(m, k))
      {
        if i > 0 {
          assert out[i] == rest.outputs[i - 1];
        }
      }
      assert (s.state - {k}) - {k} == s.state - {k};
    }
  }

  /**
   * A fresh id announced with `n >= 1` parts closes on the `n`-th completion
   * and not before, and its record is gone afterwards.
   */
  lemma FreshTransactionClosesOnLast(m: TxnMap, k: string, n: nat)
    requires k !in m
    requires n >= 1
    ensures CompleteTimes(SetLength(m, Some(k), Some(n)), k, n).outputs == seq(n, i => i == n - 1)
    ensures k !in CompleteTimes(SetLength(m, Some(k), Some(n)), k, n).state
    ensures CompleteTimes(SetLength(m, Some(k), Some(n)), k, n).state == m
  {
    var m1 := SetLength(m, Some(k), Some(n));
    ClosureSchedule(m1, k, n);
    var t := CompleteTimes(m1, k, n);
    assert t.state - {k} == m - {k};
    assert t.state == t.state - {k};
    assert m == m - {k};
  }

  /** Completing an id that has no record reports closure and leaves the map as it was. */
  lemma StaleIdClosesAgain(m: TxnMap, k: string)
    requires k !in m
    ensures Complete(m, Some(k)) == Step(m, Some(true))
  {
  }

  /**
   * Re-announcing an open transaction with another length does not move its
   * closure point: closure still follows the `remains` seeded by the first
   * non-zero announcement.
   */
  lemma ReannouncingKeepsSchedule(m: TxnMap, k: string, length: int, n: nat)
    requires k in m && m[k].length != 0
    ensures CompleteTimes(SetLength(m, Some(k), Some(length)), k, n).outputs == CompleteTimes(m, k, n).outputs
  {
    var m1 := SetLength(m, Some(k), Some(length));
    assert Remaining(m1, k) == Remaining(m, k);
    ClosureSchedule(m1, k, n);
    ClosureSchedule(m, k, n);
  }

  /**
   * Three announcements of a two-part transaction on an unknown id followed
   * by three completions: the second completion closes it and the third,
   * finding no record, closes it again. The map ends as it began.
   */
  lemma AnnouncedThriceClosesTwice(m: TxnMap, k: string)
    requires k !in m
    ensures var a := SetLength(SetLength(SetLength(m, Some(k), Some(2)), Some(k), Some(2)), Some(k), Some(2));
            var c1 := Complete(a, Some(k));
            var c2 := Complete(c1.state, Some(k));
            var c3 := Complete(c2.state, Some(k));
            && c1.value == Some(false) && c2.value == Some(true) && c3.value == Some(true)
            && c3.state == m
  {
  }

  /**
   * The same three announcements when each is followed at once by its
   * completion: the second completion closes the transaction and the third
   * announcement re-creates the record, so the third completion does not
   * close it and a record with one part remaining is left behind.
   */
  lemma AlternatingClosesOnce(m: TxnMap, k: string)
    requires k !in m
    ensures var c1 := Complete(SetLength(m, Some(k), Some(2)), Some(k));
            var c2 := Complete(SetLength(c1.state, Some(k), Some(2)), Some(k));
            var c3 := Complete(SetLength(c2.state, Some(k), Some(2)), Some(k));
            && c1.value == Some(false) && c2.value == Some(true) && c3.value == Some(false)
            && c3.state == m[k := Txn(2, 1)]
  {
  }

  /** One transaction call as issued by a caller. */
  datatype Op = SetOp(key: Option<string>, length: Option<int>) | CompleteOp(key: Option<string>)

  /** The effect of one call; `setTransactionByTransactionId` returns `undefined`. */
  function Apply(m: TxnMap, op: Op): Step<Option<bool>> {
    match op
    case SetOp(key, length) => Step(SetLength(m, key, length), None)
    case CompleteOp(key) => Complete(m, key)
  }

  /** Calls applied in order on the single event loop. */
  function Execute(m: TxnMap, ops: seq<Op>): (r: Trace<Option<bool>>)
    ensures |r.outputs| == |ops|
    decreases |ops|
  {
    if |ops| == 0 then Trace(m, [])
    else
      var s := Apply(m, ops[0]);
      var rest := Execute(s.state, ops[1..]);
      Trace(rest.state, [s.value] + rest.outputs)
  }

  /** The calls that name id `k`, in order. */
  function OpsOn(ops: seq<Op>, k: string): seq<Op>
    decreases |ops|
  {
    if |ops| == 0 then []
    else if ops[0].key == Some(k) then [ops[0]] + OpsOn(ops[1..], k)
    else OpsOn(ops[1..], k)
  }

  /** What the calls that name id `k` returned, in order. */
  function OutputsOn(ops: seq<Op>, outputs: seq<Option<bool>>, k: string): seq<Option<bool>>
    requires |ops| == |outputs|
    decreases |ops|
  {
    if |ops| == 0 then []
    else if ops[0].key == Some(k) then [outputs[0]] + OutputsOn(ops[1..], outputs[1..], k)
    else OutputsOn(ops[1..], outputs[1..], k)
  }

  /** One call reads and writes only the record of the id it names. */
  lemma ApplyIsLocal(m1: TxnMap, m2: TxnMap, op: Op, k: string)
    requires Lookup(m1, k) == Lookup(m2, k)
    ensures op.key == Some(k) ==>
              && Lookup(Apply(m1, op).state, k) == Lookup(Apply(m2, op).state, k)
              && Apply(m1, op).value == Apply(m2, op).value
    ensures op.key != Some(k) ==> Lookup(Apply(m1, op).state, k) == Lookup(m1, k)
  {
  }

  /**
   * Transactions do not interfere: in any interleaving of calls, the record
   * of id `k` and every answer given for `k` are those of the calls naming
   * `k` alone.
   */
  lemma {:induction false} Isolation(m1: TxnMap, m2: TxnMap, ops: seq<Op>, k: string)
    requires Lookup(m1, k) == Lookup(m2, k)
    ensures Lookup(Execute(m1, ops).state, k) == Lookup(Execute(m2, OpsOn(ops, k)).state, k)
    ensures OutputsOn(ops, Execute(m1, ops).outputs, k) == Execute(m2, OpsOn(ops, k)).outputs
    decreases |ops|
  {
    if |ops| > 0 {
      var op := ops[0];
      var a1 := Apply(m1, op);
      var run1 := Execute(a1.state, ops[1..]);
      assert Execute(m1, ops) == Trace(run1.state, [a1.value] + run1.outputs);
      assert ([a1.value] + run1.outputs)[1..] == run1.outputs;
      ApplyIsLocal(m1, m2, op, k);
      if op.key == Some(k) {
        var a2 := Apply(m2, op);
        var filtered := OpsOn(ops, k);
        assert filtered == [op] + OpsOn(ops[1..], k);
        assert filtered[0] == op && filtered[1..] == OpsOn(ops[1..], k);
        Isolation(a1.state, a2.state, ops[1..], k);
      } else {
        Isolation(a1.state, m2, ops[1..], k);
      }
    }
  }
}
