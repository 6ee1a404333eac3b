/** One account's flows: two queries, for what it sent and for what it received, merged into one
    entry for each log position. */
module FlowMerge {
  import opened ScoreLedger
  import opened Sorting

  /** The flows of one log position; a self-transfer flows both ways. */
  datatype Delta = Delta(block: nat, index: nat, inflow: nat, outflow: nat)

  function DeltaOf(t: Transfer, a: Address): Delta {
    Delta(t.block, t.index, if t.to == a then t.value else 0, if t.from == a then t.value else 0)
  }

  predicate Touches(t: Transfer, a: Address) {
    t.from == a || t.to == a
  }

  /** The specification: one entry for each transfer of the window that touches the account. */
  function Deltas(w: seq<Transfer>, a: Address): seq<Delta> {
    if w == [] then []
    else
      var rest, last := Deltas(w[..|w| - 1], a), w[|w| - 1];
      if Touches(last, a) then rest + [DeltaOf(last, a)] else rest
  }

  /** What the log reader returns for a query on senders, or on receivers. */
  function Query(w: seq<Transfer>, batch: set<Address>, senders: bool): seq<Transfer> {
    if w == [] then []
    else
      var rest, last := Query(w[..|w| - 1], batch, senders), w[|w| - 1];
      if (if senders then last.from else last.to) in batch then rest + [last] else rest
  }

  lemma {:induction false} QueryIs(w: seq<Transfer>, batch: set<Address>, senders: bool)
    ensures forall t :: t in Query(w, batch, senders) <==> t in w && (if senders then t.from else t.to) in batch
  {
    if w != [] {
      QueryIs(w[..|w| - 1], batch, senders);
      assert w == w[..|w| - 1] + [w[|w| - 1]];
    }
  }

  /** A query repeats no log. */
  lemma {:induction false} QueryRises(w: seq<Transfer>, batch: set<Address>, senders: bool)
    requires InOrder(w)
    ensures NoRepeats(Query(w, batch, senders))
  {
    if w != [] {
      var init, last := w[..|w| - 1], w[|w| - 1];
      QueryRises(init, batch, senders);
      QueryIs(init, batch, senders);
      var rest := Query(init, batch, senders);
      forall i | 0 <= i < |rest| ensures rest[i] != last {
        assert rest[i] in rest;
        var k :| 0 <= k < |init| && init[k] == rest[i];
      }
    }
  }

  // ---- The map of flows, as its entries in key order ----

  const BY_KEY: (Delta, Delta) -> bool :=
    (x: Delta, y: Delta) => x.block < y.block || (x.block == y.block && x.index < y.index)

  /** The entry of a log, given which logs have been added as sent and as received. */
  function Flow(t: Transfer, outs: seq<Transfer>, ins: seq<Transfer>): Delta {
    Delta(t.block, t.index, if t in ins then t.value else 0, if t in outs then t.value else 0)
  }

  ghost predicate HasLog(d: Delta, outs: seq<Transfer>, ins: seq<Transfer>) {
    exists t :: (t in outs || t in ins) && d == Flow(t, outs, ins)
  }

  ghost predicate Merged(deltas: seq<Delta>, outs: seq<Transfer>, ins: seq<Transfer>) {
    && Rises(BY_KEY, deltas)
    && (forall d :: d in deltas ==> HasLog(d, outs, ins))
    && (forall t :: t in outs || t in ins ==> Flow(t, outs, ins) in deltas)
  }

  /** Within the chain's logs a position names one log. */
  lemma SamePosition(w: seq<Transfer>, x: Transfer, y: Transfer)
    requires InOrder(w) && x in w && y in w && x.block == y.block && x.index == y.index
    ensures x == y
  {
    var i, j :| 0 <= i < |w| && 0 <= j < |w| && w[i] == x && w[j] == y;
  }

  function Placed(d: Delta, value: nat, inflow: bool): Delta {
    if inflow then d.(inflow := d.inflow + value) else d.(outflow := d.outflow + value)
  }

  /** Adding a log leaves the entries of all other logs as they are. */
  lemma OthersStay(t: Transfer, outs: seq<Transfer>, ins: seq<Transfer>, inflow: bool)
    requires t !in (if inflow then ins else outs)
    ensures var outs', ins' := if inflow then outs else outs + [t], if inflow then ins + [t] else ins;
            && (forall x :: x != t ==> Flow(x, outs', ins') == Flow(x, outs, ins))
            && Flow(t, outs', ins') == Placed(Flow(t, outs, ins), t.value, inflow)
            && (forall x :: x in outs' || x in ins' <==> x in outs || x in ins || x == t)
  {
  }

  lemma LogStays(d: Delta, t: Transfer, outs: seq<Transfer>, ins: seq<Transfer>, inflow: bool)
    requires HasLog(d, outs, ins) && t !in (if inflow then ins else outs)
    requires d.block != t.block || d.index != t.index
    ensures var outs', ins' := if inflow then outs else outs + [t], if inflow then ins + [t] else ins;
            HasLog(d, outs', ins')
  {
    var outs', ins' := if inflow then outs else outs + [t], if inflow then ins + [t] else ins;
    var x :| (x in outs || x in ins) && d == Flow(x, outs, ins);
    OthersStay(t, outs, ins, inflow);
    assert d == Flow(x, outs', ins');
  }

  lemma AddedInPlace(deltas: seq<Delta>, k: nat, t: Transfer, inflow: bool, outs: seq<Transfer>, ins: seq<Transfer>,
                     w: seq<Transfer>)
    requires Merged(deltas, outs, ins) && InOrder(w) && k < |deltas|
    requires forall x :: x in outs || x in ins || x == t ==> x in w
    requires t !in (if inflow then ins else outs)
    requires deltas[k].block == t.block && deltas[k].index == t.index
    ensures var outs', ins' := if inflow then outs else outs + [t], if inflow then ins + [t] else ins;
            Merged(deltas[k := Placed(deltas[k], t.value, inflow)], outs', ins')
  {
    hide Flow, Placed, Rises, InOrder;
    var outs', ins' := if inflow then outs else outs + [t], if inflow then ins + [t] else ins;
    var next := deltas[k := Placed(deltas[k], t.value, inflow)];
    assert HasLog(deltas[k], outs, ins);
    var found :| (found in outs || found in ins) && deltas[k] == Flow(found, outs, ins);
    FlowIsAt(found, outs, ins);
    SamePosition(w, found, t);
    OthersStay(t, outs, ins, inflow);
    assert next[k] == Flow(t, outs', ins');
    KeysKept(deltas, k, t.value, inflow);
    forall d | d in next ensures HasLog(d, outs', ins') {
      var i :| 0 <= i < |next| && next[i] == d;
      if i != k {
        assert deltas[i] in deltas;
        KeysDistinct(deltas, i, k);
        LogStays(d, t, outs, ins, inflow);
      }
    }
    forall x | x in outs' || x in ins' ensures Flow(x, outs', ins') in next {
      if x != t {
        var i :| 0 <= i < |deltas| && deltas[i] == Flow(x, outs, ins);
        FlowIsAt(x, outs, ins);
        if i == k {
          SamePosition(w, x, t);
        }
        assert next[i] == deltas[i];
      }
    }
  }

  lemma KeysDistinct(deltas: seq<Delta>, i: nat, k: nat)
    requires Rises(BY_KEY, deltas) && i < |deltas| && k < |deltas| && i != k
    ensures deltas[i].block != deltas[k].block || deltas[i].index != deltas[k].index
  {
    assert if i < k then BY_KEY(deltas[i], deltas[k]) else BY_KEY(deltas[k], deltas[i]);
  }

  lemma FlowIsAt(t: Transfer, outs: seq<Transfer>, ins: seq<Transfer>)
    ensures Flow(t, outs, ins).block == t.block && Flow(t, outs, ins).index == t.index
  {
  }

  lemma KeysKept(deltas: seq<Delta>, k: nat, value: nat, inflow: bool)
    requires Rises(BY_KEY, deltas) && k < |deltas|
    ensures Rises(BY_KEY, deltas[k := Placed(deltas[k], value, inflow)])
  {
  }

  lemma AddedAnew(deltas: seq<Delta>, t: Transfer, inflow: bool, outs: seq<Transfer>, ins: seq<Transfer>)
    requires Merged(deltas, outs, ins) && t !in outs && t !in ins
    requires forall k :: 0 <= k < |deltas| ==> !(deltas[k].block == t.block && deltas[k].index == t.index)
    ensures var outs', ins' := if inflow then outs else outs + [t], if inflow then ins + [t] else ins;
            Merged(Insert(BY_KEY, deltas, Placed(Delta(t.block, t.index, 0, 0), t.value, inflow)), outs', ins')
  {
    var outs', ins' := if inflow then outs else outs + [t], if inflow then ins + [t] else ins;
    var d := Placed(Delta(t.block, t.index, 0, 0), t.value, inflow);
    OthersStay(t, outs, ins, inflow);
    assert d == Flow(t, outs', ins');
    NewKeyCompares(deltas, d);
    hide Flow, Placed, Orders, Rises, Insert;
    InsertRises(BY_KEY, deltas, d);
    InsertHolds(BY_KEY, deltas, d);
    forall e | e in Insert(BY_KEY, deltas, d) ensures HasLog(e, outs', ins') {
      if e in deltas {
        var k :| 0 <= k < |deltas| && deltas[k] == e;
        LogStays(e, t, outs, ins, inflow);
      }
    }
    forall x | x in outs' || x in ins' ensures Flow(x, outs', ins') in Insert(BY_KEY, deltas, d) {
    }
  }

  lemma NewKeyCompares(deltas: seq<Delta>, d: Delta)
    requires forall k :: 0 <= k < |deltas| ==> !(deltas[k].block == d.block && deltas[k].index == d.index)
    ensures Orders(BY_KEY) && forall e :: e in deltas ==> BY_KEY(d, e) || BY_KEY(e, d)
  {
  }

  /** `add_delta`: flows add up at their position. */
  method AddDelta(deltas: seq<Delta>, t: Transfer, inflow: bool, ghost outs: seq<Transfer>, ghost ins: seq<Transfer>,
                  ghost w: seq<Transfer>)
    returns (next: seq<Delta>)
    requires Merged(deltas, outs, ins) && InOrder(w)
    requires forall x :: x in outs || x in ins || x == t ==> x in w
    requires t !in (if inflow then ins else outs)
    ensures var outs', ins' := if inflow then outs else outs + [t], if inflow then ins + [t] else ins;
            Merged(next, outs', ins')
  {
    hide Merged;
    for k := 0 to |deltas|
      invariant forall i :: 0 <= i < k ==> !(deltas[i].block == t.block && deltas[i].index == t.index)
    {
      if deltas[k].block == t.block && deltas[k].index == t.index {
        AddedInPlace(deltas, k, t, inflow, outs, ins, w);
        return deltas[k := Placed(deltas[k], t.value, inflow)];
      }
    }
    NotThere(deltas, t, outs, ins);
    AddedAnew(deltas, t, inflow, outs, ins);
    next := Insert(BY_KEY, deltas, Placed(Delta(t.block, t.index, 0, 0), t.value, inflow));
  }

  lemma NotThere(deltas: seq<Delta>, t: Transfer, outs: seq<Transfer>, ins: seq<Transfer>)
    requires Merged(deltas, outs, ins)
    requires forall k :: 0 <= k < |deltas| ==> !(deltas[k].block == t.block && deltas[k].index == t.index)
    ensures t !in outs && t !in ins
  {
    assert Flow(t, outs, ins) !in deltas;
  }

  lemma {:induction false} DeltasHold(w: seq<Transfer>, a: Address)
    ensures forall d :: d in Deltas(w, a) ==> exists t :: t in w && Touches(t, a) && d == DeltaOf(t, a)
    ensures forall t :: t in w && Touches(t, a) ==> DeltaOf(t, a) in Deltas(w, a)
  {
    if w != [] {
      var init, last := w[..|w| - 1], w[|w| - 1];
      assert w == init + [last];
      DeltasHold(init, a);
      hide Touches, DeltaOf;
    }
  }

  lemma {:induction false} DeltasRise(w: seq<Transfer>, a: Address)
    requires InOrder(w)
    ensures Rises(BY_KEY, Deltas(w, a))
  {
    if w != [] {
      var init, last := w[..|w| - 1], w[|w| - 1];
      DeltasRise(init, a);
      DeltasHold(init, a);
      var rest := Deltas(init, a);
      forall i | 0 <= i < |rest| ensures BY_KEY(rest[i], DeltaOf(last, a)) {
        assert rest[i] in rest;
        var t :| t in init && Touches(t, a) && rest[i] == DeltaOf(t, a);
        var k :| 0 <= k < |init| && w[k] == t;
      }
    }
  }

  lemma MergedIsDeltas(deltas: seq<Delta>, w: seq<Transfer>, a: Address)
    requires InOrder(w) && Merged(deltas, Query(w, {a}, true), Query(w, {a}, false))
    ensures deltas == Deltas(w, a)
  {
    var outs, ins := Query(w, {a}, true), Query(w, {a}, false);
    QueryIs(w, {a}, true);
    QueryIs(w, {a}, false);
    DeltasHold(w, a);
    DeltasRise(w, a);
    assert forall t :: t in w ==> Flow(t, outs, ins) == DeltaOf(t, a);
    hide Flow, DeltaOf, Query, Deltas, Rises;
    forall d ensures d in deltas <==> d in Deltas(w, a) {
      if d in deltas {
        assert HasLog(d, outs, ins);
      }
    }
    RiseIsUnique(BY_KEY, deltas, Deltas(w, a));
  }

  /** The two queries merged are exactly the account's entries, each position once and in order. */
  method MergeFlows(outgoing: seq<Transfer>, incoming: seq<Transfer>, ghost w: seq<Transfer>, ghost a: Address)
    returns (deltas: seq<Delta>)
    requires InOrder(w) && outgoing == Query(w, {a}, true) && incoming == Query(w, {a}, false)
    ensures deltas == Deltas(w, a)
  {
    hide Merged, Query, Rises;
    QueryIs(w, {a}, true);
    QueryIs(w, {a}, false);
    QueryRises(w, {a}, true);
    QueryRises(w, {a}, false);
    deltas := [];
    NothingMerged();
    for k := 0 to |outgoing|
      invariant Merged(deltas, outgoing[..k], [])
    {
      assert outgoing[..k + 1] == outgoing[..k] + [outgoing[k]];
      deltas := AddDelta(deltas, outgoing[k], false, outgoing[..k], [], w);
    }
    assert outgoing[..|outgoing|] == outgoing && incoming[..0] == [];
    for k := 0 to |incoming|
      invariant Merged(deltas, outgoing, incoming[..k])
    {
      assert incoming[..k + 1] == incoming[..k] + [incoming[k]];
      deltas := AddDelta(deltas, incoming[k], true, outgoing, incoming[..k], w);
    }
    assert incoming[..|incoming|] == incoming;
    MergedIsDeltas(deltas, w, a);
  }

  lemma NothingMerged()
    ensures Merged([], [], [])
  {
  }
}
