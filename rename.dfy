/** `RenameLinkIter`: a decorator over a link iterator that renames the
    node ids to `0, 1, 2, …` in order of first appearance, keeping the
    correspondence in a hash map. */
module Rename {
  import opened Links
  import opened Counters

  // ---------------------------------------------------------------------
  // The renaming state
  // ---------------------------------------------------------------------

  /** The fields `seens` (original id to new id) and `count`. */
  datatype Renaming = Renaming(seens: map<Node, Node>, count: nat)

  /** The map numbers its keys `0..count`: one new id per key, all below
      `count`, no two keys sharing one. */
  ghost predicate Numbering(s: Renaming)
  {
    |s.seens| == s.count
    && (forall x :: x in s.seens ==> s.seens[x] < s.count)
    && (forall x, y :: x in s.seens && y in s.seens && x != y ==> s.seens[x] != s.seens[y])
  }

  /** A set of ids all below `n` has at most `n` elements. */
  lemma {:induction false} BoundedCard(s: set<nat>, n: nat)
    requires forall x :: x in s ==> x < n
    ensures |s| <= n
  {
    if n == 0 {
      assert s == {};
    } else {
      BoundedCard(s - {n - 1}, n - 1);
    }
  }

  /** While some node id is still unnamed, fewer than `USIZE_MAX + 1` ids
      are named, so the next new id still fits in a `usize`. */
  lemma FreshIdFits(keys: set<Node>, x: Node)
    requires x !in keys
    ensures |keys| <= USIZE_MAX
  {
    var named := set n: nat | n in keys + {x};
    assert named == keys + {x};
    BoundedCard(named, USIZE_MAX + 1);
  }

  /** One `if !seens.contains_key(n) { seens.insert(n, count); count += 1 }`.
      `count` is the number of named ids, so while `n` is still unnamed the
      new id fits in a `usize`. */
  function Insert(s: Renaming, n: Node): (r: Renaming)
    requires |s.seens| == s.count
    ensures |r.seens| == r.count
    ensures n in r.seens
  {
    if n in s.seens then s
    else
      FreshIdFits(s.seens.Keys, n);
      Renaming(s.seens[n := s.count], s.count + 1)
  }

  /** Naming an id keeps the numbering and every id already named. */
  lemma InsertKeeps(s: Renaming, n: Node)
    requires Numbering(s)
    ensures Numbering(Insert(s, n))
    ensures forall x :: x in s.seens ==> x in Insert(s, n).seens && Insert(s, n).seens[x] == s.seens[x]
  {
  }

  /** The state after the iterator has handed out `links`. */
  function Rename(links: seq<Link>): (s: Renaming)
    ensures |s.seens| == s.count
  {
    if links == [] then Renaming(map[], 0)
    else
      var l := links[|links| - 1];
      Insert(Insert(Rename(links[..|links| - 1]), l.node1), l.node2)
  }

  /** After every call, the map numbers its keys `0..count`: `count` is the
      number of keys, every new id is below it, and no two keys share one. */
  lemma {:induction false} RenameNumbering(links: seq<Link>)
    ensures Numbering(Rename(links))
  {
    if links != [] {
      var l := links[|links| - 1];
      var p := Rename(links[..|links| - 1]);
      RenameNumbering(links[..|links| - 1]);
      InsertKeeps(p, l.node1);
      InsertKeeps(Insert(p, l.node1), l.node2);
    }
  }

  /** The link handed out for `l`, once both its ends are named. */
  function Relabel(s: Renaming, l: Link): (r: Link)
    requires l.node1 in s.seens && l.node2 in s.seens
    ensures r.time == l.time
    ensures r.node1 == s.seens[l.node1] && r.node2 == s.seens[l.node2]
  {
    Link(s.seens[l.node1], s.seens[l.node2], l.time)
  }

  /** Reading one more link names its two ends. */
  lemma RenameStep(links: seq<Link>, k: nat)
    requires k < |links|
    ensures Rename(links[..k + 1]) == Insert(Insert(Rename(links[..k]), links[k].node1), links[k].node2)
  {
    assert links[..k + 1][..k] == links[..k];
  }

  // ---------------------------------------------------------------------
  // The iterator
  // ---------------------------------------------------------------------

  class RenameLinkIter {
    /** The decorated iterator: the links it yields, and how many it has
        yielded so far. */
    var source: seq<Link>
    var pos: nat
    var seens: map<Node, Node>
    var count: nat

    /** The fields hold the renaming of the links consumed so far. */
    ghost predicate Valid()
      reads this
    {
      pos <= |source| && Renaming(seens, count) == Rename(source[..pos])
    }

    /** `RenameLinkIter::new`: an empty map and a zero count. */
    constructor (source: seq<Link>)
      ensures Valid()
      ensures this.source == source && pos == 0 && seens == map[] && count == 0
    {
      this.source := source;
      pos := 0;
      seens := map[];
      count := 0;
    }

    /** `if !self.seens.contains_key(&n) { insert n as count; count += 1 }`. */
    method Name(n: Node)
      requires |seens| == count
      modifies this
      ensures Renaming(seens, count) == Insert(old(Renaming(seens, count)), n)
      ensures source == old(source) && pos == old(pos)
      ensures n in seens
    {
      if n !in seens {
        FreshIdFits(seens.Keys, n);
        seens := seens[n := count];
        count := count + 1;
      }
    }

    /** `next`: `None` once the decorated iterator is exhausted; otherwise
        name the unseen ends, `node1` first, and hand out the link under
        the new names with its time unchanged. */
    method Next() returns (r: Option<Link>)
      requires Valid()
      modifies this
      ensures Valid() && source == old(source)
      ensures old(pos) == |source| ==> r == None && pos == old(pos) && seens == old(seens) && count == old(count)
      ensures old(pos) < |source| ==>
                pos == old(pos) + 1
                && source[old(pos)].node1 in seens && source[old(pos)].node2 in seens
                && r == Some(Relabel(Renaming(seens, count), source[old(pos)]))
    {
      if pos == |source| {
        return None;
      }
      var link := source[pos];
      RenameStep(source, pos);
      Name(link.node1);
      Name(link.node2);
      var index1 := seens[link.node1];
      var index2 := seens[link.node2];
      pos := pos + 1;
      r := Some(Link(index1, index2, link.time));
    }
  }

  // ---------------------------------------------------------------------
  // What the renaming is
  // ---------------------------------------------------------------------

  /** `order` lists the named ids, the `i`-th one renamed `i`. */
  ghost predicate InOrder(s: Renaming, order: seq<nat>)
  {
    s.count == |order|
    && (forall x :: x in s.seens <==> x in order)
    && (forall i :: 0 <= i < |order| ==> order[i] in s.seens && s.seens[order[i]] == i)
  }

  /** Naming `n` appends it to the order when it is new. */
  lemma InsertInOrder(s: Renaming, order: seq<nat>, n: Node)
    requires |s.seens| == s.count && InOrder(s, order)
    ensures InOrder(Insert(s, n), if n in order then order else order + [n])
  {
  }

  /** The new ids follow the order of first appearance: the `i`-th distinct
      node id of the stream (`node1` before `node2`) is renamed `i`, the
      map holds exactly the stream's node ids, and `count` is their number. */
  lemma {:induction false} RenameInOrder(links: seq<Link>)
    ensures InOrder(Rename(links), SeenNodes(links))
  {
    if links != [] {
      var prefix := links[..|links| - 1];
      var l := links[|links| - 1];
      RenameInOrder(prefix);
      var s1 := Insert(Rename(prefix), l.node1);
      var o1 := SeenNodes(prefix);
      InsertInOrder(Rename(prefix), o1, l.node1);
      var o2 := if l.node1 in o1 then o1 else o1 + [l.node1];
      InsertInOrder(s1, o2, l.node2);
    }
  }

  /** A link names at most its two ends, and a self-loop at most one. */
  lemma NewIds(links: seq<Link>, l: Link)
    ensures var before := Rename(links).count;
            var after := Rename(links + [l]).count;
            before <= after <= before + (if l.node1 == l.node2 then 1 else 2)
  {
    assert (links + [l])[..|links|] == links;
  }

  /** The ids named after a prefix of the stream keep their values over the
      whole stream. */
  lemma {:induction false} RenameStable(links: seq<Link>, j: nat)
    requires j <= |links|
    ensures forall x :: x in Rename(links[..j]).seens ==>
              x in Rename(links).seens && Rename(links).seens[x] == Rename(links[..j]).seens[x]
    decreases |links| - j
  {
    if j < |links| {
      var longer := links[..j + 1];
      assert longer[..j] == links[..j];
      RenameNumbering(links[..j]);
      var p := Rename(links[..j]);
      InsertKeeps(p, links[j].node1);
      InsertKeeps(Insert(p, links[j].node1), links[j].node2);
      RenameStable(links, j + 1);
    } else {
      assert links[..j] == links;
    }
  }

  /** The links handed out for `links`, in order: each under the renaming
      in force just after it was read. */
  function Emitted(links: seq<Link>): (out: seq<Link>)
    ensures |out| == |links|
  {
    if links == [] then []
    else
      var l := links[|links| - 1];
      var s := Rename(links);
      assert l.node1 in s.seens && l.node2 in s.seens;
      Emitted(links[..|links| - 1]) + [Relabel(s, l)]
  }

  /** `out` is `links` with every end renamed under `s`. */
  ghost predicate RelabelledBy(s: Renaming, links: seq<Link>, out: seq<Link>)
  {
    |out| == |links|
    && forall k :: 0 <= k < |links| ==>
         links[k].node1 in s.seens && links[k].node2 in s.seens && out[k] == Relabel(s, links[k])
  }

  /** A renaming that extends `p` relabels the same way on what `p` names. */
  lemma Widen(p: Renaming, s: Renaming, links: seq<Link>, out: seq<Link>)
    requires RelabelledBy(p, links, out)
    requires forall x :: x in p.seens ==> x in s.seens && s.seens[x] == p.seens[x]
    ensures RelabelledBy(s, links, out)
  {
  }

  /** Relabelling extends link by link. */
  lemma Append(s: Renaming, links: seq<Link>, out: seq<Link>, l: Link)
    requires RelabelledBy(s, links, out)
    requires l.node1 in s.seens && l.node2 in s.seens
    ensures RelabelledBy(s, links + [l], out + [Relabel(s, l)])
  {
  }

  /** The whole output stream is the input stream under one renaming, the
      final one: a node keeps its new id from its first link to its last,
      the times are untouched, and the new ids are `0..count`. */
  lemma {:induction false} EmittedUniform(links: seq<Link>)
    ensures RelabelledBy(Rename(links), links, Emitted(links))
  {
    if links != [] {
      var n := |links| - 1;
      var prefix := links[..n];
      EmittedUniform(prefix);
      RenameStable(links, n);
      var s := Rename(links);
      var l := links[n];
      Widen(Rename(prefix), s, prefix, Emitted(prefix));
      assert l.node1 in s.seens && l.node2 in s.seens;
      Append(s, prefix, Emitted(prefix), l);
      assert links == prefix + [l];
      assert Emitted(links) == Emitted(prefix) + [Relabel(s, l)];
    }
  }

  /** Reading one more link hands out that link under the renaming in
      force after it. */
  lemma EmittedStep(links: seq<Link>, k: nat)
    requires k < |links|
    ensures links[k].node1 in Rename(links[..k + 1]).seens && links[k].node2 in Rename(links[..k + 1]).seens
    ensures Emitted(links[..k + 1]) == Emitted(links[..k]) + [Relabel(Rename(links[..k + 1]), links[k])]
  {
    assert links[..k + 1][..k] == links[..k];
  }

  /** Collecting the iterator to the end hands out `Emitted(source)`, and leaves the
      renaming of the whole stream in its fields. */
  method Collect(it: RenameLinkIter) returns (out: seq<Link>)
    requires it.Valid() && it.pos == 0
    modifies it
    ensures it.Valid() && it.pos == |it.source| && it.source == old(it.source)
    ensures out == Emitted(it.source)
  {
    out := [];
    assert it.source[..0] == [];
    while it.pos < |it.source|
      invariant it.Valid() && it.source == old(it.source)
      invariant out == Emitted(it.source[..it.pos])
      decreases |it.source| - it.pos
    {
      ghost var k := it.pos;
      var r := it.Next();
      EmittedStep(it.source, k);
      out := out + [r.value];
    }
    assert it.source[..|it.source|] == it.source;
  }
}
