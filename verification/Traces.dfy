/**
 * What transactions, blocks and chains do, said step by step: the stores and gas meters between messages,
 * between transactions and between blocks. The reference computes the last of them, and nothing else.
 */
module Traces {
  import opened Bytes
  import opened Branches
  import opened GasMeters
  import opened Transactions
  import opened BlockExecution
  import opened Options

  /** A store and a gas meter between two steps. */
  datatype Moment = Moment(state: State, gas: Meter)

  // ---------------------------------------------------------------------------
  // Messages
  // ---------------------------------------------------------------------------

  predicate Follows(r: Step, before: Moment, after: Moment) {
    r.status == Done && after == Moment(Apply(before.state, r.writes), r.gas)
  }

  /** The first messages succeed, and each starts where the one before it has ended. */
  ghost predicate Succession(h: Handlers, c: Ctx, tx: Tx, at: seq<Moment>) {
    && 1 <= |at| <= |tx.msgs| + 1
    && forall i :: 0 <= i < |at| - 1 ==> Follows(h.msg(c, tx, i, at[i].state, at[i].gas), at[i], at[i + 1])
  }

  /** The messages from the i-th on continue a succession up to the first that fails. */
  lemma {:induction false} Continues(h: Handlers, c: Ctx, tx: Tx, s: State, w: Writes, at: seq<Moment>)
    returns (at': seq<Moment>)
    requires Succession(h, c, tx, at) && at[|at| - 1].state == Apply(s, w)
    ensures Succession(h, c, tx, at') && at <= at'
    ensures EndsAs(h, c, tx, s, at', MsgsFrom(h, c, tx, |at| - 1, s, w, at[|at| - 1].gas))
    decreases |tx.msgs| - |at|
  {
    var i := |at| - 1;
    at' := at;
    if i < |tx.msgs| {
      var r := h.msg(c, tx, i, at[i].state, at[i].gas);
      ApplyTwice(s, w, r.writes);
      if r.status == Done {
        at' := Continues(h, c, tx, s, w + r.writes, at + [Moment(Apply(at[i].state, r.writes), r.gas)]);
      }
    }
  }

  /** The step `m` on the store `s` ends where the succession does, or with the message that fails there. */
  ghost predicate EndsAs(h: Handlers, c: Ctx, tx: Tx, s: State, at: seq<Moment>, m: Step)
    requires Succession(h, c, tx, at)
  {
    var n := |at| - 1;
    if n == |tx.msgs| then m.status == Done && Moment(Apply(s, m.writes), m.gas) == at[n]
    else
      var r := h.msg(c, tx, n, at[n].state, at[n].gas);
      m.status == r.status != Done && m.gas == r.gas && Apply(s, m.writes) == Apply(at[n].state, r.writes)
  }

  /** A succession that starts at the same moment takes the same course. */
  lemma {:induction false} SameCourse(h: Handlers, c: Ctx, tx: Tx, at: seq<Moment>, at': seq<Moment>)
    requires Succession(h, c, tx, at) && Succession(h, c, tx, at') && at[0] == at'[0] && |at| <= |at'|
    ensures at <= at'
    ensures |at| < |at'| ==> h.msg(c, tx, |at| - 1, at[|at| - 1].state, at[|at| - 1].gas).status == Done
  {
    var n := |at| - 1;
    assert n < |at'| - 1 ==> Follows(h.msg(c, tx, n, at'[n].state, at'[n].gas), at'[n], at'[n + 1]);
    if n > 0 {
      assert Succession(h, c, tx, at[..n]) by {
        forall i | 0 <= i < n - 1
          ensures Follows(h.msg(c, tx, i, at[..n][i].state, at[..n][i].gas), at[..n][i], at[..n][i + 1])
        {
          assert at[..n][i] == at[i] && at[..n][i + 1] == at[i + 1];
        }
      }
      SameCourse(h, c, tx, at[..n], at');
      assert at[n - 1] == at[..n][n - 1] == at'[n - 1];
      assert Follows(h.msg(c, tx, n - 1, at[n - 1].state, at[n - 1].gas), at[n - 1], at[n]);
      assert at == at[..n] + [at[n]];
    }
  }

  // ---------------------------------------------------------------------------
  // Transactions
  // ---------------------------------------------------------------------------

  datatype End =
    NoGasLeft | Unusable | RefusedByAnte | NotRemovable | MessageFails | RefusedByPost | TooExpensive | Succeeds

  /** How a transaction ends, the moments between its messages, the store it leaves and what it is charged. */
  datatype Trace = Trace(end: End, at: seq<Moment>, state: State, cost: nat)

  /** The smaller one of what was consumed and the limit, if there is one. */
  predicate Spends(gas: Meter, cost: nat) {
    && cost <= gas.consumed && (gas.Basic? ==> cost <= gas.limit)
    && (cost == gas.consumed || (gas.Basic? && cost == gas.limit))
  }

  /** The transaction `raw` of a block on the store `s`, when the meter of the block shows `g`. */
  ghost predicate IsTrace(h: Handlers, c: Ctx, s: State, g: Meter, raw: Key, stuck: bool, t: Trace) {
    var tx := h.decode(raw);
    if g.Basic? && g.consumed >= g.limit then t == Trace(NoGasLeft, [], s, 0)
    else if tx.None? || tx.value.msgs == [] || exists msg :: msg in tx.value.msgs && !h.validMsg(msg) then
      t == Trace(Unusable, [], s, 0)
    else FromAnte(h, c, s, g, tx.value, stuck, t)
  }

  ghost predicate FromAnte(h: Handlers, c: Ctx, s: State, g: Meter, tx: Tx, stuck: bool, t: Trace) {
    var a := h.ante(c, tx, s);
    if a.status != Done then t == Trace(RefusedByAnte, [], s, t.cost) && Spends(a.gas, t.cost)
    else if stuck then t == Trace(NotRemovable, [], Apply(s, a.writes), t.cost) && Spends(a.gas, t.cost)
    else
      && Succession(h, c, tx, t.at) && t.at[0] == Moment(Apply(s, a.writes), a.gas)
      && if tx.reflects && |t.at| == |tx.msgs| + 1 then FromPost(h, c, g, tx, t)
         else t.end == MessageFails && t.state == t.at[0].state && FailsAt(h, c, tx, t.at, t.cost)
  }

  /** All messages have succeeded; what they and the post handler wrote is kept only if the block can pay for it. */
  ghost predicate FromPost(h: Handlers, c: Ctx, g: Meter, tx: Tx, t: Trace)
    requires t.at != []
  {
    var last := t.at[|t.at| - 1];
    var p := h.post(c, tx, true, last.state, last.gas);
    && Spends(p.gas, t.cost)
    && match t.end
       case RefusedByPost => p.status != Done && t.state == t.at[0].state
       case TooExpensive => p.status == Done && !Pays(g, t.cost) && t.state == t.at[0].state
       case Succeeds => p.status == Done && Pays(g, t.cost) && t.state == Apply(last.state, p.writes)
       case _ => false
  }

  predicate Pays(g: Meter, cost: nat) {
    g.consumed + cost <= MAX_UINT64 && (g.Basic? ==> g.consumed + cost <= g.limit)
  }

  /** The next message fails, and the post handler is told so unless it panicked; or there were no messages to run. */
  ghost predicate FailsAt(h: Handlers, c: Ctx, tx: Tx, at: seq<Moment>, cost: nat)
    requires 1 <= |at| <= |tx.msgs| + 1
  {
    var n := |at| - 1;
    if !tx.reflects then n == 0 && Spends(h.post(c, tx, false, at[0].state, at[0].gas).gas, cost)
    else
      && n < |tx.msgs|
      && var r := h.msg(c, tx, n, at[n].state, at[n].gas);
         && r.status != Done
         && Spends(if r.status == Panicked then r.gas
                   else h.post(c, tx, false, Apply(at[n].state, r.writes), r.gas).gas, cost)
  }

  /** A trace says what the reference computes. */
  ghost predicate Agrees(s: State, g: Meter, e: Settled, t: Trace) {
    && (e.ok <==> t.end == Succeeds) && Apply(s, e.writes) == t.state
    && e.blockGas == if t.end == NoGasLeft then g else Charged(g, t.cost)
  }

  /**
   * Every transaction of a block has a trace: it succeeds exactly if the ante handler, all messages, each on the
   * store that the ones before have left, and the post handler succeed and the block can pay; then the store is
   * the last one. Otherwise the trace names the first step that fails.
   */
  lemma TxTraced(h: Handlers, c: Ctx, s: State, g: Meter, raw: Key, stuck: bool) returns (t: Trace)
    requires c.mode == Finalize
    ensures IsTrace(h, c, s, g, raw, stuck, t) && Agrees(s, g, Settle(h, c, s, g, raw, stuck), t)
  {
    ApplyNothing(s);
    if IsOutOfGas(g) {
      t := Trace(NoGasLeft, [], s, 0);
    } else if Admitted(h, Finalize, raw).None? {
      t := Trace(Unusable, [], s, 0);
    } else {
      var tx := Admitted(h, Finalize, raw).value;
      var a := h.ante(c, tx, s);
      if a.status != Done {
        t := Trace(RefusedByAnte, [], s, ConsumedToLimit(a.gas));
      } else if stuck {
        t := Trace(NotRemovable, [], Apply(s, a.writes), ConsumedToLimit(a.gas));
      } else {
        t := ExecutionTraced(h, c, s, g, tx, a);
      }
    }
  }

  lemma ExecutionTraced(h: Handlers, c: Ctx, s: State, g: Meter, tx: Tx, a: Step) returns (t: Trace)
    requires c.mode == Finalize && a == h.ante(c, tx, s) && a.status == Done
    ensures FromAnte(h, c, s, g, tx, false, t)
    ensures var e := Execution(h, c, tx, Apply(s, a.writes), a.gas);
            && t.cost == ConsumedToLimit(e.gas)
            && (t.end == Succeeds <==> e.status == Done && Pays(g, t.cost))
            && t.state == Apply(s, if t.end == Succeeds then a.writes + e.writes else a.writes)
            && t.end != NoGasLeft
  {
    var s0 := Apply(s, a.writes);
    var e := Execution(h, c, tx, s0, a.gas);
    var start := [Moment(s0, a.gas)];
    ApplyTwice(s, a.writes, e.writes);
    ApplyNothing(s0);
    var cost := ConsumedToLimit(e.gas);
    if !tx.reflects {
      t := Trace(MessageFails, start, s0, cost);
    } else {
      var at := Continues(h, c, tx, s0, map[], start);
      var m := Messages(h, c, tx, s0, a.gas);
      if m.status == Done {
        var p := h.post(c, tx, true, Apply(s0, m.writes), m.gas);
        ApplyTwice(s0, m.writes, p.writes);
        var end := if p.status != Done then RefusedByPost else if Pays(g, cost) then Succeeds else TooExpensive;
        t := Trace(end, at, if end == Succeeds then Apply(s0, e.writes) else s0, cost);
      } else {
        t := Trace(MessageFails, at, s0, cost);
      }
    }
  }

  /** The steps alone decide how a transaction ends. */
  lemma OneTrace(h: Handlers, c: Ctx, s: State, g: Meter, raw: Key, stuck: bool, t: Trace, t': Trace)
    requires IsTrace(h, c, s, g, raw, stuck, t) && IsTrace(h, c, s, g, raw, stuck, t')
    ensures t == t'
  {
    if t.at != [] && t'.at != [] {
      var tx := h.decode(raw).value;
      if |t.at| <= |t'.at| {
        SameEnd(h, c, s, g, tx, t, t');
      } else {
        SameEnd(h, c, s, g, tx, t', t);
      }
    }
  }

  lemma SameEnd(h: Handlers, c: Ctx, s: State, g: Meter, tx: Tx, t: Trace, t': Trace)
    requires FromAnte(h, c, s, g, tx, false, t) && FromAnte(h, c, s, g, tx, false, t') && 0 < |t.at| <= |t'.at|
    ensures t == t'
  {
    SameCourse(h, c, tx, t.at, t'.at);
  }

  /** Any trace of a transaction says what the reference computes. */
  lemma TraceSettles(h: Handlers, c: Ctx, s: State, g: Meter, raw: Key, stuck: bool, t: Trace)
    requires c.mode == Finalize && IsTrace(h, c, s, g, raw, stuck, t)
    ensures Agrees(s, g, Settle(h, c, s, g, raw, stuck), t)
  {
    var t' := TxTraced(h, c, s, g, raw, stuck);
    OneTrace(h, c, s, g, raw, stuck, t, t');
  }

  // ---------------------------------------------------------------------------
  // Other modes
  // ---------------------------------------------------------------------------

  /** What a transaction has to get through before its messages, in a mode other than finalize. */
  ghost predicate PassesAnte(h: Handlers, c: Ctx, s: State, raw: Key, stuck: bool) {
    && h.decode(raw).Some?
    && var tx := h.decode(raw).value;
       && (c.mode != ReCheck ==> tx.msgs != [] && forall msg :: msg in tx.msgs ==> h.validMsg(msg))
       && h.ante(c, tx, s).status == Done && (c.mode == Check ==> !stuck) && tx.reflects
  }

  /** When transactions are checked or looked at in proposals, no message runs: the post handler is asked at once. */
  lemma CheckPasses(h: Handlers, c: Ctx, s: State, raw: Key, stuck: bool)
    requires c.mode != Finalize && c.mode != Simulate
    ensures Passes(h, c, s, raw, stuck) <==>
              && PassesAnte(h, c, s, raw, stuck)
              && var tx := h.decode(raw).value; var a := h.ante(c, tx, s);
                 h.post(c, tx, true, Apply(s, a.writes), a.gas).status == Done
  {
    ApplyOnAnte(h, c, s, raw);
  }

  lemma ApplyOnAnte(h: Handlers, c: Ctx, s: State, raw: Key)
    ensures h.decode(raw).Some? ==>
              var s0 := Apply(s, h.ante(c, h.decode(raw).value, s).writes); Apply(s0, map[]) == s0
  {
    if h.decode(raw).Some? {
      ApplyNothing(Apply(s, h.ante(c, h.decode(raw).value, s).writes));
    }
  }

  /** A simulation passes exactly if all messages, one after the other, and the post handler do. */
  lemma SimulationPasses(h: Handlers, c: Ctx, s: State, raw: Key, stuck: bool)
    requires c.mode == Simulate
    ensures Passes(h, c, s, raw, stuck) <==>
              PassesAnte(h, c, s, raw, stuck) && exists at :: PassesBy(h, c, h.decode(raw).value, s, at)
  {
    if PassesAnte(h, c, s, raw, stuck) {
      var tx := h.decode(raw).value;
      var a := h.ante(c, tx, s);
      var s0 := Apply(s, a.writes);
      ApplyNothing(s0);
      var at := Continues(h, c, tx, s0, map[], [Moment(s0, a.gas)]);
      assert Passes(h, c, s, raw, stuck) <==> PassesBy(h, c, tx, s, at);
      forall at' | PassesBy(h, c, tx, s, at') ensures PassesBy(h, c, tx, s, at) {
        SameCourse(h, c, tx, at, at');
      }
    }
  }

  ghost predicate PassesBy(h: Handlers, c: Ctx, tx: Tx, s: State, at: seq<Moment>) {
    var a, n := h.ante(c, tx, s), |tx.msgs|;
    && Succession(h, c, tx, at) && |at| == n + 1 && at[0] == Moment(Apply(s, a.writes), a.gas)
    && h.post(c, tx, true, at[n].state, at[n].gas).status == Done
  }
}
