/** The benchmark's recursive log reader: it bisects block ranges and, within one block, the
    alternatives of its filter. */
module BenchmarkReader {
  import opened Wrappers
  import opened Sorting

  datatype Entry = Entry(block: nat, index: nat, address: nat, topics: seq<nat>, payload: nat)

  /** Alternatives for each topic and for the address; an empty list accepts anything. */
  datatype Filter = Filter(topics: seq<seq<nat>>, addresses: seq<nat>)

  predicate Accepts(alternatives: seq<nat>, value: nat) {
    alternatives == [] || value in alternatives
  }

  predicate Matches(l: Entry, f: Filter) {
    && |f.topics| <= |l.topics| && Accepts(f.addresses, l.address)
    && forall i :: 0 <= i < |f.topics| ==> Accepts(f.topics[i], l.topics[i])
  }

  predicate Wanted(l: Entry, f: Filter, start: nat, end: nat) {
    Matches(l, f) && start <= l.block <= end
  }

  // ---- Splitting a filter ----

  /** The topic with the most alternatives, if more than one; of equals the last. */
  function Widest(topics: seq<seq<nat>>): (i: Option<nat>)
    ensures i.None? <==> forall j :: 0 <= j < |topics| ==> |topics[j]| <= 1
    ensures i.Some? ==>
              && i.value < |topics| && |topics[i.value]| > 1
              && forall j :: 0 <= j < |topics| ==>
                   |topics[j]| < |topics[i.value]| || (|topics[j]| == |topics[i.value]| && j <= i.value)
  {
    if topics == [] then None
    else
      var last := |topics| - 1;
      var best := Widest(topics[..last]);
      if |topics[last]| > 1 && (best.None? || |topics[last]| >= |topics[best.value]|) then Some(last) else best
  }

  function Halves(f: Filter): Option<(Filter, Filter)> {
    var i := Widest(f.topics);
    if i.Some? then
      var values := f.topics[i.value];
      Some((f.(topics := f.topics[i.value := values[..|values| / 2]]),
            f.(topics := f.topics[i.value := values[|values| / 2..]])))
    else if |f.addresses| > 1 then
      Some((f.(addresses := f.addresses[..|f.addresses| / 2]), f.(addresses := f.addresses[|f.addresses| / 2..])))
    else None
  }

  function Width(topics: seq<seq<nat>>): nat {
    if topics == [] then 0 else Width(topics[..|topics| - 1]) + |topics[|topics| - 1]|
  }

  function Breadth(f: Filter): nat {
    Width(f.topics) + |f.addresses|
  }

  lemma {:induction false} WidthOfUpdate(topics: seq<seq<nat>>, i: nat, values: seq<nat>)
    requires i < |topics|
    ensures Width(topics[i := values]) == Width(topics) - |topics[i]| + |values|
  {
    var last := |topics| - 1;
    if i == last {
      assert topics[i := values][..last] == topics[..last];
    } else {
      WidthOfUpdate(topics[..last], i, values);
      assert topics[i := values][..last] == topics[..last][i := values];
    }
  }

  lemma HalvesAreNarrower(f: Filter)
    requires Halves(f).Some?
    ensures Breadth(Halves(f).value.0) < Breadth(f) && Breadth(Halves(f).value.1) < Breadth(f)
  {
    var i := Widest(f.topics);
    if i.Some? {
      var values := f.topics[i.value];
      WidthOfUpdate(f.topics, i.value, values[..|values| / 2]);
      WidthOfUpdate(f.topics, i.value, values[|values| / 2..]);
    }
  }

  lemma HalfAccepts(values: seq<nat>, v: nat)
    requires |values| > 1
    ensures Accepts(values, v) <==> Accepts(values[..|values| / 2], v) || Accepts(values[|values| / 2..], v)
    ensures NoRepeats(values) ==> !(Accepts(values[..|values| / 2], v) && Accepts(values[|values| / 2..], v))
  {
    var m := |values| / 2;
    assert values == values[..m] + values[m..];
    if v in values[..m] && v in values[m..] {
      var i :| 0 <= i < m && values[i] == v;
      var j :| m <= j < |values| && values[j] == v;
    }
  }

  ghost predicate Alternatives(f: Filter) {
    NoRepeats(f.addresses) && forall i :: 0 <= i < |f.topics| ==> NoRepeats(f.topics[i])
  }

  /** A log that the filter wants is wanted by one half, and by only one if no alternative is
      listed twice. */
  lemma HalvesPartition(f: Filter, l: Entry)
    requires Halves(f).Some?
    ensures var (left, right) := Halves(f).value;
            && (Matches(l, f) <==> Matches(l, left) || Matches(l, right))
            && (Alternatives(f) ==> !(Matches(l, left) && Matches(l, right)))
  {
    var (left, right) := Halves(f).value;
    var i := Widest(f.topics);
    if i.Some? {
      if |f.topics| <= |l.topics| {
        HalfAccepts(f.topics[i.value], l.topics[i.value]);
        TopicMatches(f, i.value, left.topics[i.value], l);
        TopicMatches(f, i.value, right.topics[i.value], l);
      }
    } else {
      HalfAccepts(f.addresses, l.address);
    }
  }

  lemma TopicMatches(f: Filter, i: nat, values: seq<nat>, l: Entry)
    requires i < |f.topics| <= |l.topics|
    ensures var others := Accepts(f.addresses, l.address) &&
                          forall j :: 0 <= j < |f.topics| && j != i ==> Accepts(f.topics[j], l.topics[j]);
            && (Matches(l, f.(topics := f.topics[i := values])) <==> others && Accepts(values, l.topics[i]))
            && (Matches(l, f) <==> others && Accepts(f.topics[i], l.topics[i]))
  {
    var g := f.(topics := f.topics[i := values]);
    assert g.topics[i] == values && forall j :: 0 <= j < |f.topics| && j != i ==> g.topics[j] == f.topics[j];
  }

  lemma HalvesKeepAlternatives(f: Filter)
    requires Halves(f).Some? && Alternatives(f)
    ensures Alternatives(Halves(f).value.0) && Alternatives(Halves(f).value.1)
  {
  }

  // ---- Reading ----

  /** A failure may say that a smaller query could succeed. */
  datatype Reply = Logs(logs: seq<Entry>) | Failure(splittable: bool)

  /** No query is asked twice, so an answer per query and range is no restriction. */
  type Rpc = (Filter, nat, nat) -> Reply

  datatype Fetched = Ok(logs: seq<Entry>) | Failed | CannotSplit(block: nat)

  function Both(a: Fetched, b: Fetched): Fetched {
    if !a.Ok? then a else if !b.Ok? then b else Ok(a.logs + b.logs)
  }

  predicate Splits(reply: Reply, cap: nat) {
    if reply.Logs? then |reply.logs| >= cap else reply.splittable
  }

  /** `fetch_logs_complete`. */
  function Fetch(rpc: Rpc, f: Filter, start: nat, end: nat, cap: nat): Fetched
    decreases if start <= end then end - start else 0, Breadth(f)
  {
    if end < start then Ok([])
    else
      var reply := rpc(f, start, end);
      if !Splits(reply, cap) then if reply.Logs? then Ok(reply.logs) else Failed
      else if start < end then
        var middle := (start + end) / 2;
        Both(Fetch(rpc, f, start, middle, cap), Fetch(rpc, f, middle + 1, end, cap))
      else
        var halves := Halves(f);
        if halves.None? then CannotSplit(start)
        else
          HalvesAreNarrower(f);
          Both(Fetch(rpc, halves.value.0, start, end, cap), Fetch(rpc, halves.value.1, start, end, cap))
  }

  ghost predicate CompleteBelowCap(rpc: Rpc, ledger: seq<Entry>, cap: nat) {
    forall f: Filter, start: nat, end: nat :: rpc(f, start, end).Logs? && |rpc(f, start, end).logs| < cap ==>
      IsAnswer(rpc(f, start, end).logs, ledger, f, start, end)
  }

  ghost predicate IsAnswer(logs: seq<Entry>, ledger: seq<Entry>, f: Filter, start: nat, end: nat) {
    NoRepeats(logs) && forall l :: l in logs <==> l in ledger && Wanted(l, f, start, end)
  }

  ghost predicate Holds(logs: seq<Entry>, ledger: seq<Entry>, f: Filter, start: nat, end: nat) {
    forall l :: l in logs <==> l in ledger && Wanted(l, f, start, end)
  }

  lemma JoinsRanges(a: seq<Entry>, b: seq<Entry>, ledger: seq<Entry>, f: Filter, start: nat, middle: nat, end: nat)
    requires start <= middle < end
    requires Holds(a, ledger, f, start, middle) && Holds(b, ledger, f, middle + 1, end)
    ensures Holds(a + b, ledger, f, start, end)
    ensures NoRepeats(a) && NoRepeats(b) ==> NoRepeats(a + b)
  {
    hide Matches;
    forall l ensures l in a + b <==> l in ledger && Wanted(l, f, start, end) {
      assert l in a + b <==> l in a || l in b;
    }
    Disjoint(a, b);
  }

  lemma Disjoint(a: seq<Entry>, b: seq<Entry>)
    requires forall l :: !(l in a && l in b)
    ensures NoRepeats(a) && NoRepeats(b) ==> NoRepeats(a + b)
  {
    var both := a + b;
    if NoRepeats(a) && NoRepeats(b) {
      forall i, j | 0 <= i < j < |both| ensures both[i] != both[j] {
        if i < |a| <= j {
          assert both[i] in a && both[j] in b;
        }
      }
    }
  }

  lemma JoinsHalves(a: seq<Entry>, b: seq<Entry>, ledger: seq<Entry>, f: Filter, start: nat, end: nat)
    requires Halves(f).Some?
    requires var (left, right) := Halves(f).value;
             Holds(a, ledger, left, start, end) && Holds(b, ledger, right, start, end)
    ensures Holds(a + b, ledger, f, start, end)
    ensures Alternatives(f) && NoRepeats(a) && NoRepeats(b) ==> NoRepeats(a + b)
  {
    forall l
      ensures l in a + b <==> l in ledger && Wanted(l, f, start, end)
      ensures Alternatives(f) ==> !(l in a && l in b)
    {
      HalvesPartition(f, l);
      hide Halves, Matches, Alternatives;
      assert l in a + b <==> l in a || l in b;
    }
    hide Halves, Alternatives, Holds;
    if Alternatives(f) {
      Disjoint(a, b);
    }
  }

  /** Whatever was refused or capped, a successful read holds exactly the wanted logs; each once, if
      the filter lists no alternative twice. */
  lemma {:induction false} FetchIsComplete(rpc: Rpc, ledger: seq<Entry>, f: Filter, start: nat, end: nat, cap: nat)
    requires CompleteBelowCap(rpc, ledger, cap)
    requires Fetch(rpc, f, start, end, cap).Ok?
    ensures Holds(Fetch(rpc, f, start, end, cap).logs, ledger, f, start, end)
    ensures Alternatives(f) ==> NoRepeats(Fetch(rpc, f, start, end, cap).logs)
    decreases if start <= end then end - start else 0, Breadth(f)
  {
    hide Halves, Alternatives, Wanted, Breadth;
    if end < start {
      NothingWanted(ledger, f, start, end);
    } else if Splits(rpc(f, start, end), cap) {
      if start < end {
        var middle := (start + end) / 2;
        FetchIsComplete(rpc, ledger, f, start, middle, cap);
        FetchIsComplete(rpc, ledger, f, middle + 1, end, cap);
        JoinsRanges(Fetch(rpc, f, start, middle, cap).logs, Fetch(rpc, f, middle + 1, end, cap).logs,
                    ledger, f, start, middle, end);
      } else {
        HalvesAreNarrower(f);
        var (left, right) := Halves(f).value;
        if Alternatives(f) {
          HalvesKeepAlternatives(f);
        }
        FetchIsComplete(rpc, ledger, left, start, end, cap);
        FetchIsComplete(rpc, ledger, right, start, end, cap);
        JoinsHalves(Fetch(rpc, left, start, end, cap).logs, Fetch(rpc, right, start, end, cap).logs,
                    ledger, f, start, end);
      }
    } else {
      assert IsAnswer(rpc(f, start, end).logs, ledger, f, start, end);
    }
  }

  lemma NothingWanted(ledger: seq<Entry>, f: Filter, start: nat, end: nat)
    requires end < start
    ensures Holds([], ledger, f, start, end) && NoRepeats<Entry>([])
  {
  }

  /** A query that cannot be narrowed: one block, at most one alternative for everything. */
  predicate Single(f: Filter, start: nat, end: nat) {
    start == end && Halves(f).None?
  }

  /** The read fails only on a failure that no smaller query could avoid, or where a query that cannot
      be narrowed is refused or capped. */
  lemma {:induction false} FetchSucceeds(rpc: Rpc, f: Filter, start: nat, end: nat, cap: nat)
    requires forall g: Filter, s: nat, e: nat :: rpc(g, s, e) != Failure(false)
    requires forall g: Filter, s: nat, e: nat :: Single(g, s, e) ==> !Splits(rpc(g, s, e), cap)
    ensures Fetch(rpc, f, start, end, cap).Ok?
    decreases if start <= end then end - start else 0, Breadth(f)
  {
    hide Halves, Breadth;
    if start <= end && Splits(rpc(f, start, end), cap) {
      if start < end {
        var middle := (start + end) / 2;
        FetchSucceeds(rpc, f, start, middle, cap);
        FetchSucceeds(rpc, f, middle + 1, end, cap);
      } else {
        assert !Single(f, start, end);
        HalvesAreNarrower(f);
        FetchSucceeds(rpc, Halves(f).value.0, start, end, cap);
        FetchSucceeds(rpc, Halves(f).value.1, start, end, cap);
      }
    }
  }
}
