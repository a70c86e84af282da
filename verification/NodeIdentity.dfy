/** node_identity.py: XOR distance, the closest nodes, and the ids of lookup transactions. */
module NodeIdentity {
  import opened ByteStrings
  import opened Bits

  const ID_BITS := 160
  /** A 20-byte id, read as a big-endian number. */
  type NodeId = nat

  datatype Address = Address(ip: nat, port: nat)
  datatype Node = Node(id: NodeId, ip: nat, port: nat)

  function AddressOf(n: Node): Address {
    Address(n.ip, n.port)
  }

  function XorDistance(a: NodeId, b: NodeId): nat {
    XorBits(a, b, ID_BITS)
  }

  /** No two ids are equally far from a target, so sorting by distance leaves no ties. */
  lemma DistanceInjective(a: NodeId, b: NodeId, target: NodeId)
    requires a < Power2(ID_BITS) && b < Power2(ID_BITS)
    requires XorDistance(a, target) == XorDistance(b, target)
    ensures a == b
  {
    XorBitsTwice(a, target, ID_BITS);
    XorBitsTwice(b, target, ID_BITS);
  }

  // ----- sorted(nodes, key=distance)[:count]

  function InsertByDistance(sorted: seq<Node>, n: Node, target: NodeId): (r: seq<Node>)
    ensures multiset(r) == multiset(sorted) + multiset{n}
    ensures |r| == |sorted| + 1
  {
    if sorted == [] then [n]
    else
      var last := |sorted| - 1;
      assert sorted == sorted[..last] + [sorted[last]];
      if XorDistance(sorted[last].id, target) <= XorDistance(n.id, target) then sorted + [n]
      else InsertByDistance(sorted[..last], n, target) + [sorted[last]]
  }

  function SortByDistance(nodes: seq<Node>, target: NodeId): (r: seq<Node>)
    ensures multiset(r) == multiset(nodes)
    ensures |r| == |nodes|
  {
    if nodes == [] then []
    else
      var last := |nodes| - 1;
      assert nodes == nodes[..last] + [nodes[last]];
      InsertByDistance(SortByDistance(nodes[..last], target), nodes[last], target)
  }

  function SelectClosest(nodes: seq<Node>, target: NodeId, count: nat): (r: seq<Node>)
    ensures |r| == if |nodes| <= count then |nodes| else count
  {
    var sorted := SortByDistance(nodes, target);
    if |sorted| <= count then sorted else sorted[..count]
  }

  ghost predicate SortedByDistance(nodes: seq<Node>, target: NodeId) {
    forall i, j :: 0 <= i < j < |nodes| ==> XorDistance(nodes[i].id, target) <= XorDistance(nodes[j].id, target)
  }

  lemma SortedThenLast(front: seq<Node>, last: Node, target: NodeId)
    requires SortedByDistance(front, target)
    requires forall x :: x in front ==> XorDistance(x.id, target) <= XorDistance(last.id, target)
    ensures SortedByDistance(front + [last], target)
  {
    hide XorDistance;
    assert forall i :: 0 <= i < |front| ==> front[i] in front;
  }

  lemma SortedLast(sorted: seq<Node>, target: NodeId)
    requires SortedByDistance(sorted, target) && sorted != []
    ensures forall x :: x in sorted ==> XorDistance(x.id, target) <= XorDistance(sorted[|sorted| - 1].id, target)
    ensures SortedByDistance(sorted[..|sorted| - 1], target)
  {
    hide XorDistance;
  }

  lemma {:induction false} Inserted(sorted: seq<Node>, n: Node, target: NodeId)
    ensures forall x :: x in InsertByDistance(sorted, n, target) <==> x in sorted || x == n
  {
    hide XorDistance;
    forall x ensures x in InsertByDistance(sorted, n, target) <==> x in sorted || x == n {
      assert x in InsertByDistance(sorted, n, target) <==> x in multiset(InsertByDistance(sorted, n, target));
      assert x in sorted <==> x in multiset(sorted);
    }
  }

  lemma {:induction false} InsertSorted(sorted: seq<Node>, n: Node, target: NodeId)
    requires SortedByDistance(sorted, target)
    ensures SortedByDistance(InsertByDistance(sorted, n, target), target)
  {
    hide XorDistance, SortedByDistance;
    if sorted == [] {
      SingleSorted(n, target);
    } else {
      var last := |sorted| - 1;
      SortedLast(sorted, target);
      if XorDistance(sorted[last].id, target) > XorDistance(n.id, target) {
        InsertSorted(sorted[..last], n, target);
        Inserted(sorted[..last], n, target);
        SortedThenLast(InsertByDistance(sorted[..last], n, target), sorted[last], target);
      } else {
        SortedThenLast(sorted, n, target);
      }
    }
  }

  lemma SingleSorted(n: Node, target: NodeId)
    ensures SortedByDistance([n], target) && SortedByDistance([], target)
  {
    hide XorDistance;
  }

  lemma {:induction false} SortSorts(nodes: seq<Node>, target: NodeId)
    ensures SortedByDistance(SortByDistance(nodes, target), target)
    ensures forall x :: x in SortByDistance(nodes, target) <==> x in nodes
  {
    hide XorDistance, SortedByDistance, InsertByDistance;
    if nodes == [] {
      SingleSorted(Node(0, 0, 0), target);
    } else {
      var last := |nodes| - 1;
      assert nodes == nodes[..last] + [nodes[last]];
      SortSorts(nodes[..last], target);
      InsertSorted(SortByDistance(nodes[..last], target), nodes[last], target);
      Inserted(SortByDistance(nodes[..last], target), nodes[last], target);
    }
  }

  /** The selection holds given nodes only, closest first, and no given node left out is closer than one taken. */
  lemma SelectsTheClosest(nodes: seq<Node>, target: NodeId, count: nat)
    ensures var chosen := SelectClosest(nodes, target, count);
            SortedByDistance(chosen, target) && (forall c :: c in chosen ==> c in nodes) &&
            forall c, n :: c in chosen && n in nodes && n !in chosen ==> XorDistance(c.id, target) <= XorDistance(n.id, target)
  {
    hide XorDistance, SortByDistance;
    var sorted := SortByDistance(nodes, target);
    SortSorts(nodes, target);
    var chosen := SelectClosest(nodes, target, count);
    forall c, n | c in chosen && n in nodes && n !in chosen
      ensures XorDistance(c.id, target) <= XorDistance(n.id, target)
    {
      var i :| 0 <= i < |chosen| && chosen[i] == c;
      assert n in sorted;
      var j :| 0 <= j < |sorted| && sorted[j] == n;
      assert j >= |chosen|;
      assert sorted[i] == c;
    }
    assert forall c :: c in chosen ==> c in sorted;
  }

  // ----- transaction ids

  const ID_CYCLE := 0x100_0000

  /** A lookup's transaction ids are "L" and three counter bytes; Tid is the counter in them. */
  type Tid = nat

  function TransactionId(sequence: nat): (r: Tid)
    ensures r < ID_CYCLE
  {
    sequence % ID_CYCLE
  }

  function WireId(tid: Tid): Bytes
    requires tid < ID_CYCLE
  {
    [76, tid / 0x1_0000, tid / 0x100 % 0x100, tid % 0x100]
  }

  /** The wire shows the whole counter, so ids can be told apart by it. */
  lemma WireIdInjective(a: Tid, b: Tid)
    requires a < ID_CYCLE && b < ID_CYCLE && WireId(a) == WireId(b)
    ensures a == b
  {
    ThreeBytes(a);
    ThreeBytes(b);
  }

  lemma ThreeBytes(n: nat)
    requires n < ID_CYCLE
    ensures n == n / 0x1_0000 * 0x1_0000 + n / 0x100 % 0x100 * 0x100 + n % 0x100
  {
    assert n / 0x100 / 0x100 == n / 0x1_0000;
  }

  /** Numbers less than 2^24 apart get different ids. */
  lemma CloseNumbersDiffer(a: nat, b: nat)
    requires a < b < a + ID_CYCLE
    ensures TransactionId(a) != TransactionId(b)
  {
    assert a == a / ID_CYCLE * ID_CYCLE + a % ID_CYCLE;
    assert b == b / ID_CYCLE * ID_CYCLE + b % ID_CYCLE;
  }
}
