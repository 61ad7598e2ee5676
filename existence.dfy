/** `delta_existence`: a pass over the stream that keeps, for each tracked
    node, the time it was last seen, and at every change of timestamp
    emits which tracked nodes were seen within δ of the timestamp just
    left. */
module Existence {
  import opened Links
  import opened Reachability

  // ---------------------------------------------------------------------
  // The node-to-slot map
  // ---------------------------------------------------------------------

  /** The map built by inserting `(nodes[i], i)` for each `i` in order: a
      node listed twice keeps its last position. */
  function Positions(nodes: seq<nat>): (pos: map<nat, nat>)
    ensures forall x :: x in pos ==> pos[x] < |nodes|
  {
    if nodes == [] then map[]
    else Positions(nodes[..|nodes| - 1])[nodes[|nodes| - 1] := |nodes| - 1]
  }

  /** The map holds exactly the listed nodes, each at a slot holding it,
      and no later slot holds it again. */
  lemma {:induction false} PositionsSpec(nodes: seq<nat>)
    ensures forall x :: x in Positions(nodes) <==> x in nodes
    ensures forall x :: x in Positions(nodes) ==> nodes[Positions(nodes)[x]] == x
    ensures forall x, j :: x in Positions(nodes) && Positions(nodes)[x] < j < |nodes| ==> nodes[j] != x
  {
    if nodes != [] {
      var prefix := nodes[..|nodes| - 1];
      PositionsSpec(prefix);
      assert nodes == prefix + [nodes[|nodes| - 1]];
    }
  }

  /** The `for i in 0..nodes.len() { map.insert(nodes[i], i) }` loop. */
  method PositionMap(nodes: seq<nat>) returns (pos: map<nat, nat>)
    ensures pos == Positions(nodes)
  {
    pos := map[];
    assert nodes[..0] == [];
    for i := 0 to |nodes|
      invariant pos == Positions(nodes[..i])
    {
      assert nodes[..i + 1][..i] == nodes[..i];
      pos := pos[nodes[i] := i];
    }
    assert nodes[..|nodes|] == nodes;
  }

  // ---------------------------------------------------------------------
  // The pass
  // ---------------------------------------------------------------------

  /** One emitted pair `(t, vec)`. */
  datatype Sample = Sample(time: Time, existing: seq<bool>)

  /** The loop state: the last-seen record, `t_curr` and the output. */
  datatype Trace = Trace(record: seq<Time>, curr: Time, results: seq<Sample>)

  /** The closure `is_existing`: a slot is existing when its last-seen
      time is less than δ after `curr`. No entry is below `curr`, so the
      `u64` subtraction never wraps. */
  function Existing(record: seq<Time>, curr: Time, delta: Time): (r: seq<bool>)
    requires forall i :: 0 <= i < |record| ==> curr <= record[i]
    ensures |r| == |record|
  {
    seq(|record|, i requires 0 <= i < |record| => record[i] - curr < delta)
  }

  /** `record[bij] = t` when the map tracks `n`, at its slot `bij`. */
  function Touch(record: seq<Time>, pos: map<nat, nat>, n: nat, t: Time): (r: seq<Time>)
    requires forall x :: x in pos ==> pos[x] < |record|
    ensures |r| == |record|
  {
    if n in pos then record[pos[n] := t] else record
  }

  /** The state after the links `links`: the first link sets `t_curr`; a
      later change of time emits the new time with the existence vector of
      the time left; then the slots of both ends, when tracked, take the
      link's time. */
  function ExistScan(links: seq<Link>, nodes: seq<nat>, delta: Time): (s: Trace)
    requires NonIncreasing(links)
    ensures |s.record| == |nodes|
    ensures s.curr == if links == [] then MAX else links[|links| - 1].time
    ensures forall i :: 0 <= i < |s.record| ==> s.curr <= s.record[i]
  {
    if links == [] then Trace(seq(|nodes|, _ => MAX), MAX, [])
    else
      var prev := ExistScan(links[..|links| - 1], nodes, delta);
      var l := links[|links| - 1];
      var results :=
        if prev.curr != MAX && prev.curr != l.time
        then prev.results + [Sample(l.time, Existing(prev.record, prev.curr, delta))]
        else prev.results;
      var pos := Positions(nodes);
      Trace(Touch(Touch(prev.record, pos, l.node1, l.time), pos, l.node2, l.time), l.time, results)
  }

  /** `delta_existence`. */
  method DeltaExistence(links: seq<Link>, nodes: seq<nat>, delta: Time) returns (results: seq<Sample>)
    requires NonIncreasing(links)
    ensures results == ExistScan(links, nodes, delta).results
  {
    results := [];
    var pos := PositionMap(nodes);
    var record: seq<Time> := [];
    for i := 0 to |nodes|
      invariant record == seq(i, _ => MAX)
    {
      record := record + [MAX];
    }
    var tCurr: Time := MAX;
    assert links[..0] == [];
    for k := 0 to |links|
      invariant Trace(record, tCurr, results) == ExistScan(links[..k], nodes, delta)
    {
      var l := links[k];
      assert links[..k + 1][..k] == links[..k];
      if tCurr == MAX {
        tCurr := l.time;
      } else if tCurr != l.time {
        results := results + [Sample(l.time, Existing(record, tCurr, delta))];
        tCurr := l.time;
      }
      if l.node1 in pos {
        record := record[pos[l.node1] := l.time];
      }
      if l.node2 in pos {
        record := record[pos[l.node2] := l.time];
      }
    }
    assert links[..|links|] == links;
  }

  // ---------------------------------------------------------------------
  // What the pass computes
  // ---------------------------------------------------------------------

  /** What slot `i` of the record holds: the time of the last link with
      `nodes[i]` as an end when `i` is the slot the map keeps for that
      node, and `MAX` otherwise (never seen, or a repeated node's earlier
      slot). */
  ghost function SlotSeen(links: seq<Link>, nodes: seq<nat>, i: nat): Time
    requires i < |nodes|
  {
    PositionsSpec(nodes);
    if Positions(nodes)[nodes[i]] == i then
      match LatestTouch(links, nodes[i])
      case None => MAX
      case Some(t) => t
    else MAX
  }

  /** The record holds, slot by slot, the last-seen times. */
  lemma {:induction false} ExistRecord(links: seq<Link>, nodes: seq<nat>, delta: Time)
    requires NonIncreasing(links)
    ensures forall i :: 0 <= i < |nodes| ==> ExistScan(links, nodes, delta).record[i] == SlotSeen(links, nodes, i)
  {
    PositionsSpec(nodes);
    if links != [] {
      var prefix := links[..|links| - 1];
      ExistRecord(prefix, nodes, delta);
    }
  }

  /** Which slots were last seen, over `links`, less than δ after `left`. */
  ghost function SeenWithin(links: seq<Link>, nodes: seq<nat>, left: Time, delta: Time): (v: seq<bool>)
    ensures |v| == |nodes|
  {
    seq(|nodes|, i requires 0 <= i < |nodes| => SlotSeen(links, nodes, i) - left < delta)
  }

  /** The emitted vector at a change of time: slot `i` is existing exactly
      when its last-seen time, over the links before the change, is less
      than δ after the time being left; no pair is emitted otherwise. */
  lemma ExistSample(links: seq<Link>, nodes: seq<nat>, delta: Time)
    requires NonIncreasing(links) && |links| >= 2
    ensures ExistScan(links, nodes, delta).results
            == ExistScan(links[..|links| - 1], nodes, delta).results
               + if links[|links| - 2].time != MAX && links[|links| - 2].time != links[|links| - 1].time
                 then [Sample(links[|links| - 1].time, SeenWithin(links[..|links| - 1], nodes, links[|links| - 2].time, delta))]
                 else []
  {
    var prefix := links[..|links| - 1];
    ExistRecord(prefix, nodes, delta);
    var prev := ExistScan(prefix, nodes, delta);
    assert prev.curr == links[|links| - 2].time;
    var v := Existing(prev.record, prev.curr, delta);
    var w := SeenWithin(prefix, nodes, prev.curr, delta);
    assert v == w;
  }

  /** The times of a stream, in order. */
  function LinkTimes(links: seq<Link>): (ts: seq<Time>)
    ensures |ts| == |links|
  {
    if links == [] then [] else LinkTimes(links[..|links| - 1]) + [links[|links| - 1].time]
  }

  /** The times of the emitted pairs, in order. */
  function SampleTimes(samples: seq<Sample>): (ts: seq<Time>)
    ensures |ts| == |samples|
  {
    if samples == [] then [] else SampleTimes(samples[..|samples| - 1]) + [samples[|samples| - 1].time]
  }

  /** When no link carries the sentinel time, one pair is emitted per
      change of timestamp, labelled with the new time; the timestamp in
      force at the end of the stream is never reported. */
  lemma {:induction false} ExistTimes(links: seq<Link>, nodes: seq<nat>, delta: Time)
    requires NonIncreasing(links)
    requires forall k :: 0 <= k < |links| ==> links[k].time < MAX
    ensures SampleTimes(ExistScan(links, nodes, delta).results) == Boundaries(LinkTimes(links))
  {
    if links != [] {
      var prefix := links[..|links| - 1];
      var l := links[|links| - 1];
      ExistTimes(prefix, nodes, delta);
      var prev := ExistScan(prefix, nodes, delta);
      var rs := ExistScan(links, nodes, delta).results;
      var ts := LinkTimes(links);
      assert ts[..|ts| - 1] == LinkTimes(prefix);
      if prefix == [] {
        assert rs == prev.results;
      } else {
        assert ts[|ts| - 2] == prev.curr;
        if prev.curr != l.time {
          assert rs[..|rs| - 1] == prev.results;
        } else {
          assert rs == prev.results;
        }
      }
    }
  }
}
