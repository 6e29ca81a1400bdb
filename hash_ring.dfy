/**
 * The consistent-hash ring of the distributed cache. Virtual nodes live in
 * a map ordered by hash (a `BTreeMap` in the source), modelled as a
 * sequence of (hash, node) pairs kept strictly sorted by hash. Each real
 * node owns `virtualNodeCount * weight` virtual nodes whose hashes are the
 * hashes of "node:i". The hash function itself (`DefaultHasher`) is a
 * parameter of the ring.
 */
module HashRing {
  import opened Text

  datatype VNode = VNode(hash: nat, node: string)

  predicate Sorted(ring: seq<VNode>) {
    forall i, j :: 0 <= i < j < |ring| ==> ring[i].hash < ring[j].hash
  }

  /** The ordered map the sorted sequence represents. */
  function AsMap(ring: seq<VNode>): map<nat, string>
    decreases |ring|
  {
    if ring == [] then map[] else AsMap(ring[1..])[ring[0].hash := ring[0].node]
  }

  /** `BTreeMap::insert`: the pair goes to its sorted place, replacing an entry with the same hash. */
  function Insert(ring: seq<VNode>, h: nat, node: string): (r: seq<VNode>)
    ensures forall v :: v in r ==> v == VNode(h, node) || v in ring
    decreases |ring|
  {
    if ring == [] then [VNode(h, node)]
    else if ring[0].hash == h then [VNode(h, node)] + ring[1..]
    else if ring[0].hash > h then [VNode(h, node)] + ring
    else [ring[0]] + Insert(ring[1..], h, node)
  }

  /** `BTreeMap::remove`: the entry with that hash, if any, goes. */
  function Remove(ring: seq<VNode>, h: nat): (r: seq<VNode>)
    ensures forall v :: v in r ==> v in ring && v.hash != h
    decreases |ring|
  {
    if ring == [] then []
    else if ring[0].hash == h then Remove(ring[1..], h)
    else [ring[0]] + Remove(ring[1..], h)
  }

  lemma InsertSpec(ring: seq<VNode>, h: nat, node: string)
    requires Sorted(ring)
    ensures Sorted(Insert(ring, h, node))
    ensures AsMap(Insert(ring, h, node)) == AsMap(ring)[h := node]
  {
    InsertSorted(ring, h, node);
    InsertMap(ring, h, node);
  }

  lemma {:induction false} InsertSorted(ring: seq<VNode>, h: nat, node: string)
    requires Sorted(ring)
    ensures Sorted(Insert(ring, h, node))
    decreases |ring|
  {
    if ring != [] && ring[0].hash < h {
      var rest := Insert(ring[1..], h, node);
      InsertSorted(ring[1..], h, node);
      forall v | v in rest
        ensures ring[0].hash < v.hash
      {
        if v != VNode(h, node) {
          var j :| 0 <= j < |ring[1..]| && ring[1..][j] == v;
          assert ring[j + 1] == v;
        }
      }
      SortedCons(ring[0], rest);
    }
  }

  lemma SortedCons(x: VNode, rest: seq<VNode>)
    requires Sorted(rest)
    requires forall v :: v in rest ==> x.hash < v.hash
    ensures Sorted([x] + rest)
  {
    forall i, j | 0 <= i < j < |[x] + rest|
      ensures ([x] + rest)[i].hash < ([x] + rest)[j].hash
    {
      if i == 0 {
        assert ([x] + rest)[j] == rest[j - 1];
      }
    }
  }

  lemma {:induction false} InsertMap(ring: seq<VNode>, h: nat, node: string)
    requires Sorted(ring)
    ensures AsMap(Insert(ring, h, node)) == AsMap(ring)[h := node]
    decreases |ring|
  {
    if ring == [] {
    } else if ring[0].hash == h {
      assert ([VNode(h, node)] + ring[1..])[1..] == ring[1..];
    } else if ring[0].hash > h {
      assert ([VNode(h, node)] + ring)[1..] == ring;
    } else {
      var rest := Insert(ring[1..], h, node);
      InsertMap(ring[1..], h, node);
      assert ([ring[0]] + rest)[1..] == rest;
      var m := AsMap(ring[1..]);
      var k, v := ring[0].hash, ring[0].node;
      var m1: map<nat, string> := m[h := node];
      var m2: map<nat, string> := m[k := v];
      assert m1[k := v] == m2[h := node];
    }
  }

  lemma RemoveSpec(ring: seq<VNode>, h: nat)
    requires Sorted(ring)
    ensures Sorted(Remove(ring, h))
    ensures AsMap(Remove(ring, h)) == AsMap(ring) - {h}
  {
    RemoveSorted(ring, h);
    RemoveMapOf(ring, h);
  }

  lemma {:induction false} RemoveSorted(ring: seq<VNode>, h: nat)
    requires Sorted(ring)
    ensures Sorted(Remove(ring, h))
    decreases |ring|
  {
    if ring != [] {
      var rest := Remove(ring[1..], h);
      RemoveSorted(ring[1..], h);
      if ring[0].hash != h {
        forall v | v in rest
          ensures ring[0].hash < v.hash
        {
          var j :| 0 <= j < |ring[1..]| && ring[1..][j] == v;
          assert ring[j + 1] == v;
        }
        SortedCons(ring[0], rest);
      }
    }
  }

  lemma {:induction false} RemoveMapOf(ring: seq<VNode>, h: nat)
    ensures AsMap(Remove(ring, h)) == AsMap(ring) - {h}
    decreases |ring|
  {
    if ring != [] {
      var rest := Remove(ring[1..], h);
      RemoveMapOf(ring[1..], h);
      var m := AsMap(ring[1..]);
      if ring[0].hash != h {
        assert ([ring[0]] + rest)[1..] == rest;
        var k, v := ring[0].hash, ring[0].node;
        var m1: map<nat, string> := m - {h};
        var m2: map<nat, string> := m[k := v];
        assert m1[k := v] == m2 - {h};
      } else {
        var m2: map<nat, string> := m[h := ring[0].node];
        assert m - {h} == m2 - {h};
      }
    }
  }

  /** The key whose hash places the `i`-th virtual node of `node`. */
  function VKey(node: string, i: nat): string {
    node + ":" + NatToString(i)
  }

  /** The hashes of the first `n` virtual nodes of `node`. */
  ghost function VHashes(hash: string -> nat, node: string, n: nat): set<nat> {
    set i | 0 <= i < n :: hash(VKey(node, i))
  }

  /** The map after the insertions of `add_node`'s loop, in order. */
  function AddMap(m: map<nat, string>, hash: string -> nat, node: string, n: nat): map<nat, string>
    decreases n
  {
    if n == 0 then m else AddMap(m, hash, node, n - 1)[hash(VKey(node, n - 1)) := node]
  }

  /** The map after the removals of `remove_node`'s loop, in order. */
  function RemoveMap(m: map<nat, string>, hash: string -> nat, node: string, n: nat): map<nat, string>
    decreases n
  {
    if n == 0 then m else RemoveMap(m, hash, node, n - 1) - {hash(VKey(node, n - 1))}
  }

  /**
   * After `add_node` every virtual node of the node is on the ring and
   * points to it; every other position keeps its owner.
   */
  lemma {:induction false} AddMapSpec(m: map<nat, string>, hash: string -> nat, node: string, n: nat)
    ensures forall h :: h in AddMap(m, hash, node, n) <==> h in m || h in VHashes(hash, node, n)
    ensures forall h :: h in VHashes(hash, node, n) ==> AddMap(m, hash, node, n)[h] == node
    ensures forall h :: h in m && h !in VHashes(hash, node, n) ==> AddMap(m, hash, node, n)[h] == m[h]
    decreases n
  {
    if n > 0 {
      AddMapSpec(m, hash, node, n - 1);
      assert VHashes(hash, node, n) == VHashes(hash, node, n - 1) + {hash(VKey(node, n - 1))};
    }
  }

  /** After `remove_node` exactly the node's virtual-node hashes are gone, whoever owned them. */
  lemma {:induction false} RemoveMapSpec(m: map<nat, string>, hash: string -> nat, node: string, n: nat)
    ensures RemoveMap(m, hash, node, n) == m - VHashes(hash, node, n)
    decreases n
  {
    if n > 0 {
      RemoveMapSpec(m, hash, node, n - 1);
      assert VHashes(hash, node, n) == VHashes(hash, node, n - 1) + {hash(VKey(node, n - 1))};
    }
  }

  /**
   * Adding a node whose virtual nodes collide with no existing position
   * and removing it again restores the ring.
   */
  lemma AddRemoveRoundTrip(m: map<nat, string>, hash: string -> nat, node: string, n: nat)
    requires forall h :: h in VHashes(hash, node, n) ==> h !in m
    ensures RemoveMap(AddMap(m, hash, node, n), hash, node, n) == m
  {
    AddMapSpec(m, hash, node, n);
    RemoveMapSpec(AddMap(m, hash, node, n), hash, node, n);
    var a := AddMap(m, hash, node, n);
    assert forall h :: h in a - VHashes(hash, node, n) <==> h in m;
  }

  /** The index of the first virtual node at or after `h` (the ring's length when there is none). */
  function FirstAtOrAfter(ring: seq<VNode>, h: nat): (r: nat)
    ensures r <= |ring|
    decreases |ring|
  {
    if ring == [] || ring[0].hash >= h then 0 else 1 + FirstAtOrAfter(ring[1..], h)
  }

  lemma {:induction false} FirstAtOrAfterSpec(ring: seq<VNode>, h: nat)
    requires Sorted(ring)
    ensures forall j :: 0 <= j < FirstAtOrAfter(ring, h) ==> ring[j].hash < h
    ensures forall j :: FirstAtOrAfter(ring, h) <= j < |ring| ==> ring[j].hash >= h
    decreases |ring|
  {
    if ring != [] && ring[0].hash < h {
      FirstAtOrAfterSpec(ring[1..], h);
    }
  }

  /**
   * The order in which `get_nodes` visits virtual nodes: from the first at
   * or after the key's hash to the end, wrapping to the whole ring when
   * there is none, then the ones before the key's hash.
   */
  function Walk(ring: seq<VNode>, h: nat): (r: seq<VNode>)
    ensures ring != [] ==> r != []
    ensures forall v :: v in r <==> v in ring
  {
    var i := FirstAtOrAfter(ring, h);
    assert ring == ring[..i] + ring[i..];
    (if i < |ring| then ring[i..] else ring) + ring[..i]
  }

  /**
   * `get_nodes` as written: each newly seen node is pushed, and only then
   * is the requested count checked.
   */
  function CollectAsWritten(w: seq<VNode>, count: nat, acc: seq<string>): seq<string>
    decreases |w|
  {
    if w == [] then acc
    else if w[0].node in acc then CollectAsWritten(w[1..], count, acc)
    else if |acc + [w[0].node]| >= count then acc + [w[0].node]
    else CollectAsWritten(w[1..], count, acc + [w[0].node])
  }

  /** The collection with the count checked before each push. */
  function Collect(w: seq<VNode>, count: nat, acc: seq<string>): seq<string>
    decreases |w|
  {
    if |acc| >= count || w == [] then acc
    else if w[0].node in acc then Collect(w[1..], count, acc)
    else Collect(w[1..], count, acc + [w[0].node])
  }

  predicate NoDuplicates(s: seq<string>) {
    forall i, j :: 0 <= i < j < |s| ==> s[i] != s[j]
  }

  /**
   * The collected nodes extend the start without duplicates, come from the
   * walk, are at most `count` many, and are all the walk's nodes when
   * fewer than `count`.
   */
  lemma {:induction false} CollectSpec(w: seq<VNode>, count: nat, acc: seq<string>)
    requires NoDuplicates(acc) && |acc| <= count
    ensures var r := Collect(w, count, acc);
      && |acc| <= |r| <= count && r[..|acc|] == acc && NoDuplicates(r)
      && (forall x :: x in r ==> x in acc || exists v :: v in w && v.node == x)
      && (|r| < count ==> forall v :: v in w ==> v.node in r)
    decreases |w|
  {
    if |acc| >= count || w == [] {
    } else if w[0].node in acc {
      CollectSpec(w[1..], count, acc);
      var r := Collect(w[1..], count, acc);
      forall x | x in r && x !in acc
        ensures exists v :: v in w && v.node == x
      {
        var v :| v in w[1..] && v.node == x;
        assert v in w;
      }
      forall v | |r| < count && v in w
        ensures v.node in r
      {
        if v != w[0] {
          assert v in w[1..];
        } else {
          assert r[..|acc|] == acc;
          var k :| 0 <= k < |acc| && acc[k] == v.node;
          assert r[k] == v.node;
        }
      }
    } else {
      var acc' := acc + [w[0].node];
      CollectSpec(w[1..], count, acc');
      var r := Collect(w[1..], count, acc');
      assert r[..|acc'|] == acc';
      assert r[..|acc|] == acc' [..|acc|] == acc;
      forall x | x in r && x !in acc
        ensures exists v :: v in w && v.node == x
      {
        if x != w[0].node {
          var v :| v in w[1..] && v.node == x;
          assert v in w;
        }
      }
      forall v | |r| < count && v in w
        ensures v.node in r
      {
        if v != w[0] {
          assert v in w[1..];
        } else {
          assert r[|acc|] == acc'[|acc|] == v.node;
        }
      }
    }
  }

  /** For a positive count the code as written and the corrected collection agree. */
  lemma {:induction false} AsWrittenAgrees(w: seq<VNode>, count: nat, acc: seq<string>)
    requires |acc| < count
    ensures CollectAsWritten(w, count, acc) == Collect(w, count, acc)
    decreases |w|
  {
    if w != [] {
      if w[0].node in acc {
        AsWrittenAgrees(w[1..], count, acc);
      } else if |acc + [w[0].node]| < count {
        AsWrittenAgrees(w[1..], count, acc + [w[0].node]);
      }
    }
  }

  /** As written, a request for no replicas on a non-empty ring still returns one node. */
  lemma ZeroCountAsWritten(ring: seq<VNode>, h: nat)
    requires ring != []
    ensures |CollectAsWritten(Walk(ring, h), 0, [])| == 1
  {
  }

  class ConsistentHashRing {
    var ring: seq<VNode>
    var weights: map<string, nat>
    const virtualNodeCount: nat
    const hash: string -> nat

    predicate Valid()
      reads this
    {
      Sorted(ring)
    }

    /** `new`: an empty ring with 150 virtual nodes per unit of weight. */
    constructor(hash: string -> nat)
      ensures Valid() && ring == [] && weights == map[]
      ensures virtualNodeCount == 150 && this.hash == hash
    {
      ring := [];
      weights := map[];
      virtualNodeCount := 150;
      this.hash := hash;
    }

    /** `add_node`: records the weight and places the node's virtual nodes on the ring. */
    method AddNode(node: string, weight: nat)
      requires Valid()
      modifies this
      ensures Valid()
      ensures weights == old(weights)[node := weight]
      ensures AsMap(ring) == AddMap(old(AsMap(ring)), hash, node, virtualNodeCount * weight)
    {
      weights := weights[node := weight];
      ghost var start := AsMap(ring);
      var n := virtualNodeCount * weight;
      var i := 0;
      while i < n
        invariant i <= n
        invariant Sorted(ring)
        invariant weights == old(weights)[node := weight]
        invariant AsMap(ring) == AddMap(start, hash, node, i)
      {
        var h := hash(VKey(node, i));
        InsertSpec(ring, h, node);
        ring := Insert(ring, h, node);
        i := i + 1;
      }
    }

    /** `remove_node`: a known node's weight and virtual-node positions go; an unknown node changes nothing. */
    method RemoveNode(node: string)
      requires Valid()
      modifies this
      ensures Valid()
      ensures node !in old(weights) ==> weights == old(weights) && ring == old(ring)
      ensures node in old(weights) ==>
        weights == old(weights) - {node}
        && AsMap(ring) == RemoveMap(old(AsMap(ring)), hash, node, virtualNodeCount * old(weights)[node])
    {
      if node in weights {
        var weight := weights[node];
        weights := weights - {node};
        ghost var start := AsMap(ring);
        var n := virtualNodeCount * weight;
        var i := 0;
        while i < n
          invariant i <= n
          invariant Sorted(ring)
          invariant weights == old(weights) - {node}
          invariant AsMap(ring) == RemoveMap(start, hash, node, i)
        {
          var h := hash(VKey(node, i));
          RemoveSpec(ring, h);
          ring := Remove(ring, h);
          i := i + 1;
        }
      }
    }

    /**
     * `get_nodes`: up to `count` distinct nodes in ring order starting at
     * the key's position.
     */
    method GetNodes(key: string, count: nat) returns (r: seq<string>)
      requires Valid()
      ensures r == Collect(Walk(ring, hash(key)), count, [])
    {
      if ring == [] {
        return [];
      }
      var h := hash(key);
      var i := 0;
      while i < |ring| && ring[i].hash < h
        invariant i <= |ring|
        invariant FirstAtOrAfter(ring, h) == i + FirstAtOrAfter(ring[i..], h)
      {
        assert ring[i..][1..] == ring[i + 1..];
        i := i + 1;
      }
      var w := (if i < |ring| then ring[i..] else ring) + ring[..i];
      assert w == Walk(ring, h);
      r := CollectNodes(w, count);
    }
  }

  /** The second loop of `get_nodes`: distinct owners in walk order, at most `count` of them. */
  method CollectNodes(w: seq<VNode>, count: nat) returns (r: seq<string>)
    ensures r == Collect(w, count, [])
  {
    r := [];
    var seen: set<string> := {};
    var k := 0;
    while k < |w|
      invariant k <= |w|
      invariant seen == set x | x in r
      invariant Collect(w[k..], count, r) == Collect(w, count, [])
    {
      assert w[k..][1..] == w[k + 1..];
      if |r| >= count {
        break;
      }
      if w[k].node !in seen {
        r := r + [w[k].node];
        seen := seen + {w[k].node};
      }
      k := k + 1;
    }
  }

  /**
   * The primary node of a key on a non-empty ring is the owner of the
   * first virtual node at or after the key's hash, or of the first virtual
   * node overall when the hash is past the last one.
   */
  lemma PrimaryIsSuccessor(ring: seq<VNode>, h: nat, count: nat)
    requires Sorted(ring) && ring != [] && count >= 1
    ensures var r := Collect(Walk(ring, h), count, []);
      && r != []
      && ((exists j :: 0 <= j < |ring| && ring[j].hash >= h && r[0] == ring[j].node
             && forall i :: 0 <= i < j ==> ring[i].hash < h)
          || (r[0] == ring[0].node && forall i :: 0 <= i < |ring| ==> ring[i].hash < h))
  {
    FirstAtOrAfterSpec(ring, h);
    var w := Walk(ring, h);
    var i := FirstAtOrAfter(ring, h);
    assert w[0] == if i < |ring| then ring[i] else ring[0];
    var none: seq<string> := [];
    assert none + [w[0].node] == [w[0].node];
    assert Collect(w, count, none) == Collect(w[1..], count, [w[0].node]);
    CollectSpec(w[1..], count, [w[0].node]);
  }
}
