/**
 * The gateway's table of pending requests: a module-level map from a
 * correlation id to the resolve/reject pair of the promise waiting for
 * that reply. The four operations are modelled as pure transitions over
 * the table together with a log of the effects they had (a continuation
 * invoked, or a "no handler" line logged).
 */
module PendingTable {
  import opened Json

  /** Which half of a promise's continuation pair a callback is. */
  datatype Side = ResolveSide | RejectSide

  /**
   * A continuation passed to `addPending`: the promise (call) it belongs
   * to and which side of it it settles.
   */
  datatype Continuation = Continuation(call: nat, side: Side)

  datatype Pending = Pending(resolve: Continuation, reject: Continuation)

  datatype Effect =
    | Invoked(continuation: Continuation, argument: Value)
    | LoggedMissing(id: string)

  datatype Table = Table(handlers: map<string, Pending>, effects: seq<Effect>)

  const Empty := Table(map[], [])

  /** Entries of every id other than `id` are the same in both tables. */
  ghost predicate OthersUnchanged(t: Table, t': Table, id: string) {
    forall k :: k != id ==>
      (k in t.handlers <==> k in t'.handlers) && (k in t.handlers ==> t'.handlers[k] == t.handlers[k])
  }

  /** `addPending`: set (not stack) the pair for `id`; nothing is invoked. */
  function AddPending(t: Table, id: string, resolve: Continuation, reject: Continuation): (t': Table)
    ensures id in t'.handlers && t'.handlers[id] == Pending(resolve, reject)
    ensures t'.handlers.Keys == t.handlers.Keys + {id}
    ensures OthersUnchanged(t, t', id)
    ensures t'.effects == t.effects
  {
    t.(handlers := t.handlers[id := Pending(resolve, reject)])
  }

  /**
   * Shared body of `resolvePending` and `rejectPending`: invoke the chosen
   * continuation of a present entry once and delete the entry, or log that
   * no handler exists and change nothing.
   */
  function Settle(t: Table, id: string, side: Side, argument: Value): (t': Table)
    ensures id in t.handlers ==>
      var p := t.handlers[id];
      && t'.effects == t.effects + [Invoked(if side == ResolveSide then p.resolve else p.reject, argument)]
      && t'.handlers.Keys == t.handlers.Keys - {id}
    ensures id !in t.handlers ==>
      t'.handlers == t.handlers && t'.effects == t.effects + [LoggedMissing(id)]
    ensures OthersUnchanged(t, t', id)
  {
    if id in t.handlers then
      var p := t.handlers[id];
      var k := if side == ResolveSide then p.resolve else p.reject;
      Table(t.handlers - {id}, t.effects + [Invoked(k, argument)])
    else
      t.(effects := t.effects + [LoggedMissing(id)])
  }

  /** `resolvePending`: the entry's resolve is called once with `data`. */
  function ResolvePending(t: Table, id: string, data: Value): (t': Table)
    ensures id in t.handlers ==>
      && t'.effects == t.effects + [Invoked(t.handlers[id].resolve, data)]
      && id !in t'.handlers
    ensures id !in t.handlers ==> t'.handlers == t.handlers && t'.effects == t.effects + [LoggedMissing(id)]
    ensures OthersUnchanged(t, t', id)
  {
    Settle(t, id, ResolveSide, data)
  }

  /** `rejectPending`: the entry's reject is called once with `error`. */
  function RejectPending(t: Table, id: string, error: Value): (t': Table)
    ensures id in t.handlers ==>
      && t'.effects == t.effects + [Invoked(t.handlers[id].reject, error)]
      && id !in t'.handlers
    ensures id !in t.handlers ==> t'.handlers == t.handlers && t'.effects == t.effects + [LoggedMissing(id)]
    ensures OthersUnchanged(t, t', id)
  {
    Settle(t, id, RejectSide, error)
  }

  /** `removePending`: delete the id, present or not, calling nothing. */
  function RemovePending(t: Table, id: string): (t': Table)
    ensures id !in t'.handlers
    ensures t'.handlers.Keys == t.handlers.Keys - {id}
    ensures OthersUnchanged(t, t', id)
    ensures t'.effects == t.effects
  {
    t.(handlers := t.handlers - {id})
  }

  /** Re-adding an id replaces the earlier pair: only the last one remains. */
  lemma AddReplaces(t: Table, id: string, r1: Continuation, j1: Continuation, r2: Continuation, j2: Continuation)
    ensures AddPending(AddPending(t, id, r1, j1), id, r2, j2) == AddPending(t, id, r2, j2)
  {
  }

  /** After a settle, a second settle of the same id invokes nothing. */
  lemma SecondSettleIsNoOp(t: Table, id: string, first: Side, second: Side, a: Value, b: Value)
    ensures var t1 := Settle(t, id, first, a);
      Settle(t1, id, second, b) == t1.(effects := t1.effects + [LoggedMissing(id)])
  {
  }

  /** `removePending` is idempotent. */
  lemma RemoveIdempotent(t: Table, id: string)
    ensures RemovePending(RemovePending(t, id), id) == RemovePending(t, id)
  {
  }

  /**
   * Register then resolve: exactly the registered resolve is called, and
   * the table returns to its state without `id`.
   */
  lemma AddThenResolve(t: Table, id: string, r: Continuation, j: Continuation, data: Value)
    ensures var t' := ResolvePending(AddPending(t, id, r, j), id, data);
      t'.handlers == t.handlers - {id} && t'.effects == t.effects + [Invoked(r, data)]
  {
  }

  // ---------------------------------------------------------------------
  // Runs of operations: each promise is settled at most once.
  // ---------------------------------------------------------------------

  /**
   * One operation on the table. `Register(id, call)` is `addPending` with
   * the resolve and reject of the promise numbered `call`.
   */
  datatype Op =
    | Register(id: string, call: nat)
    | Resolve(id: string, data: Value)
    | Reject(id: string, error: Value)
    | Remove(id: string)

  function Step(t: Table, op: Op): Table {
    match op
    case Register(id, c) => AddPending(t, id, Continuation(c, ResolveSide), Continuation(c, RejectSide))
    case Resolve(id, d) => ResolvePending(t, id, d)
    case Reject(id, e) => RejectPending(t, id, e)
    case Remove(id) => RemovePending(t, id)
  }

  /** The table after applying `ops` in order to the empty table. */
  function Run(ops: seq<Op>): Table
    decreases |ops|
  {
    if |ops| == 0 then Empty else Step(Run(ops[..|ops| - 1]), ops[|ops| - 1])
  }

  /** The promises settled by a run, in the order their continuations ran. */
  function SettledCalls(effects: seq<Effect>): seq<nat>
    decreases |effects|
  {
    if |effects| == 0 then []
    else
      var last := effects[|effects| - 1];
      SettledCalls(effects[..|effects| - 1]) + (if last.Invoked? then [last.continuation.call] else [])
  }

  predicate NoRepeats(s: seq<nat>) {
    forall i, j :: 0 <= i < j < |s| ==> s[i] != s[j]
  }

  /** The promises registered by the operations. */
  function RegisteredCalls(ops: seq<Op>): set<nat> {
    set i | 0 <= i < |ops| && ops[i].Register? :: ops[i].call
  }

  /** Every registration uses a promise of its own, as every call creates one. */
  predicate FreshRegistrations(ops: seq<Op>) {
    forall i, j :: 0 <= i < j < |ops| && ops[i].Register? && ops[j].Register? ==> ops[i].call != ops[j].call
  }

  /**
   * What holds of the table after every prefix of a fresh run, given the
   * promises registered so far: no promise settled twice, every entry is
   * the untouched pair of one registered promise, and distinct entries
   * belong to distinct promises.
   */
  ghost predicate RunInvariant(registered: set<nat>, t: Table) {
    var settled := SettledCalls(t.effects);
    && NoRepeats(settled)
    && (forall k :: k in t.handlers ==> WellFormedEntry(t.handlers[k], registered, settled))
    && (forall k1, k2 :: k1 in t.handlers && k2 in t.handlers && k1 != k2 ==>
          t.handlers[k1].resolve.call != t.handlers[k2].resolve.call)
    && (forall i :: 0 <= i < |settled| ==> settled[i] in registered)
  }

  ghost predicate WellFormedEntry(p: Pending, registered: set<nat>, settled: seq<nat>) {
    && p.resolve == Continuation(p.resolve.call, ResolveSide)
    && p.reject == Continuation(p.resolve.call, RejectSide)
    && p.resolve.call !in settled
    && p.resolve.call in registered
  }

  lemma SettledAppend(effects: seq<Effect>, e: Effect)
    ensures SettledCalls(effects + [e]) == SettledCalls(effects) + (if e.Invoked? then [e.continuation.call] else [])
  {
    assert (effects + [e])[..|effects|] == effects;
  }

  lemma RegisterKeepsInvariant(registered: set<nat>, t: Table, id: string, c: nat)
    requires RunInvariant(registered, t)
    requires c !in registered
    ensures RunInvariant(registered + {c}, Step(t, Register(id, c)))
  {
    var t' := Step(t, Register(id, c));
    var settled := SettledCalls(t.effects);
    assert SettledCalls(t'.effects) == settled;
    forall k | k in t'.handlers
      ensures WellFormedEntry(t'.handlers[k], registered + {c}, settled)
    {
      if k != id {
        assert WellFormedEntry(t.handlers[k], registered, settled);
      }
    }
  }

  lemma SettleKeepsInvariant(registered: set<nat>, t: Table, id: string, side: Side, a: Value)
    requires RunInvariant(registered, t)
    ensures RunInvariant(registered, Settle(t, id, side, a))
  {
    var t' := Settle(t, id, side, a);
    var settled := SettledCalls(t.effects);
    if id in t.handlers {
      var p := t.handlers[id];
      var k := if side == ResolveSide then p.resolve else p.reject;
      SettledAppend(t.effects, Invoked(k, a));
      assert WellFormedEntry(p, registered, settled);
      var settled' := SettledCalls(t'.effects);
      assert settled' == settled + [p.resolve.call];
      forall k' | k' in t'.handlers
        ensures WellFormedEntry(t'.handlers[k'], registered, settled')
      {
        assert WellFormedEntry(t.handlers[k'], registered, settled);
      }
    } else {
      SettledAppend(t.effects, LoggedMissing(id));
    }
  }

  lemma RemoveKeepsInvariant(registered: set<nat>, t: Table, id: string)
    requires RunInvariant(registered, t)
    ensures RunInvariant(registered, RemovePending(t, id))
  {
    var t' := RemovePending(t, id);
    forall k | k in t'.handlers
      ensures WellFormedEntry(t'.handlers[k], registered, SettledCalls(t'.effects))
    {
      assert WellFormedEntry(t.handlers[k], registered, SettledCalls(t.effects));
    }
  }

  lemma RegisteredOfSnoc(ops: seq<Op>, op: Op)
    ensures RegisteredCalls(ops + [op]) == RegisteredCalls(ops) + (if op.Register? then {op.call} else {})
  {
    var all := ops + [op];
    forall c | c in RegisteredCalls(ops) ensures c in RegisteredCalls(all) {
      var i :| 0 <= i < |ops| && ops[i].Register? && ops[i].call == c;
      assert all[i] == ops[i];
    }
    if op.Register? {
      assert all[|ops|] == op;
    }
  }

  lemma {:induction false} RunKeepsInvariant(ops: seq<Op>)
    requires FreshRegistrations(ops)
    ensures RunInvariant(RegisteredCalls(ops), Run(ops))
    decreases |ops|
  {
    if |ops| == 0 {
      assert SettledCalls(Empty.effects) == [];
    } else {
      var prefix := ops[..|ops| - 1];
      var op := ops[|ops| - 1];
      assert ops == prefix + [op];
      assert FreshRegistrations(prefix);
      RunKeepsInvariant(prefix);
      RegisteredOfSnoc(prefix, op);
      var t := Run(prefix);
      match op
      case Register(id, c) =>
        forall i | 0 <= i < |prefix| && prefix[i].Register?
          ensures prefix[i].call != c
        {
          assert ops[i] == prefix[i];
        }
        RegisterKeepsInvariant(RegisteredCalls(prefix), t, id, c);
      case Resolve(id, d) =>
        SettleKeepsInvariant(RegisteredCalls(prefix), t, id, ResolveSide, d);
      case Reject(id, e) =>
        SettleKeepsInvariant(RegisteredCalls(prefix), t, id, RejectSide, e);
      case Remove(id) =>
        RemoveKeepsInvariant(RegisteredCalls(prefix), t, id);
    }
  }

  /**
   * When every registration has its own promise, no promise is ever
   * settled twice: a timeout and a late reply racing on one id invoke one
   * continuation between them, and the loser only logs.
   */
  lemma SettledAtMostOnce(ops: seq<Op>)
    requires FreshRegistrations(ops)
    ensures NoRepeats(SettledCalls(Run(ops).effects))
  {
    RunKeepsInvariant(ops);
  }
}
