/** Doubly linked lists as values: the prev and next links of every node, and
    what it means for a head and those links to spell out a sequence. Shared by
    the parked-writer lists and the limiter's FIFO list. */
module Chains {
  import opened Windows

  datatype Links<N> = Links(prev: map<N, Option<N>>, next: map<N, Option<N>>)

  ghost predicate AllDifferent<N>(q: seq<N>) {
    q == [] || (q[0] !in q[1..] && AllDifferent(q[1..]))
  }

  lemma {:induction false} PairsDiffer<N>(q: seq<N>)
    requires AllDifferent(q)
    ensures forall i, j :: 0 <= i < j < |q| ==> q[i] != q[j]
  {
    if q != [] {
      PairsDiffer(q[1..]);
      assert forall i :: 0 < i < |q| ==> q[i] == q[1..][i - 1];
    }
  }

  /** The node at position i, or nothing beyond either end. */
  function NodeAt<N>(q: seq<N>, i: int): Option<N> {
    if 0 <= i < |q| then Some(q[i]) else None
  }

  /** The links spell out q, forwards and backwards, coming from `before`. */
  ghost predicate Segment<N>(q: seq<N>, before: Option<N>, l: Links<N>) {
    q == [] ||
    (&& q[0] in l.prev && q[0] in l.next && l.prev[q[0]] == before && l.next[q[0]] == NodeAt(q, 1)
     && q[0] !in q[1..] && Segment(q[1..], Some(q[0]), l))
  }

  /** head and the links spell out exactly q. */
  ghost predicate Chain<N>(q: seq<N>, head: Option<N>, l: Links<N>) {
    head == NodeAt(q, 0) && Segment(q, None, l)
  }

  // ---------------------------------------------------------------- position by position

  ghost predicate LinkedAt<N>(q: seq<N>, before: Option<N>, l: Links<N>, i: nat)
    requires i < |q|
  {
    && q[i] in l.prev && l.prev[q[i]] == (if i == 0 then before else Some(q[i - 1]))
    && q[i] in l.next && l.next[q[i]] == NodeAt(q, i + 1)
  }

  lemma {:induction false} SegmentAt<N>(q: seq<N>, before: Option<N>, l: Links<N>, i: nat)
    requires Segment(q, before, l) && i < |q|
    ensures LinkedAt(q, before, l, i)
  {
    if i > 0 {
      SegmentAt(q[1..], Some(q[0]), l, i - 1);
    }
  }

  lemma {:induction false} SegmentIsDistinct<N>(q: seq<N>, before: Option<N>, l: Links<N>)
    requires Segment(q, before, l)
    ensures AllDifferent(q)
  {
    if q != [] {
      SegmentIsDistinct(q[1..], Some(q[0]), l);
    }
  }

  lemma {:induction false} LinkedAtIsSegment<N>(q: seq<N>, before: Option<N>, l: Links<N>)
    requires AllDifferent(q) && (forall i :: 0 <= i < |q| ==> LinkedAt(q, before, l, i))
    ensures Segment(q, before, l)
  {
    if q != [] {
      var rest := q[1..];
      assert LinkedAt(q, before, l, 0);
      assert forall i :: 0 <= i < |rest| ==> rest[i] == q[i + 1];
      forall i | 0 <= i < |rest|
        ensures LinkedAt(rest, Some(q[0]), l, i)
      {
        assert LinkedAt(q, before, l, i + 1);
      }
      LinkedAtIsSegment(rest, Some(q[0]), l);
    }
  }

  lemma ChainAt<N>(q: seq<N>, head: Option<N>, l: Links<N>, i: nat)
    requires Chain(q, head, l) && i < |q|
    ensures q[i] in l.prev && l.prev[q[i]] == NodeAt(q, i - 1)
    ensures q[i] in l.next && l.next[q[i]] == NodeAt(q, i + 1)
  {
    SegmentAt(q, None, l, i);
  }

  lemma ChainIsDistinct<N>(q: seq<N>, head: Option<N>, l: Links<N>)
    requires Chain(q, head, l)
    ensures AllDifferent(q)
  {
    SegmentIsDistinct(q, None, l);
  }

  /** The other way round: the links say so at every position. */
  lemma LinkedAtIsChain<N>(q: seq<N>, l: Links<N>)
    requires AllDifferent(q) && (forall i :: 0 <= i < |q| ==> LinkedAt(q, None, l, i))
    ensures Chain(q, NodeAt(q, 0), l)
  {
    LinkedAtIsSegment(q, None, l);
  }

  // ---------------------------------------------------------------- push

  /** The links after x is pushed in front of head. */
  function Pushed<N(==)>(l: Links<N>, head: Option<N>, x: N): Links<N> {
    var prev := l.prev[x := None];
    Links(if head.Some? then prev[head.value := Some(x)] else prev, l.next[x := head])
  }

  lemma {:induction false} SegmentFrame<N>(q: seq<N>, before: Option<N>, l: Links<N>, l': Links<N>)
    requires Segment(q, before, l)
    requires forall x | x in q :: x in l.prev && x in l.next ==> x in l'.prev && x in l'.next && l'.prev[x] == l.prev[x] && l'.next[x] == l.next[x]
    ensures Segment(q, before, l')
  {
    if q != [] {
      SegmentFrame(q[1..], Some(q[0]), l, l');
    }
  }

  lemma PushKeepsChain<N>(q: seq<N>, head: Option<N>, l: Links<N>, x: N)
    requires Chain(q, head, l) && x !in q
    ensures Chain([x] + q, Some(x), Pushed(l, head, x))
  {
    var l' := Pushed(l, head, x);
    assert ([x] + q)[1..] == q;
    if q != [] {
      SegmentFrame(q[1..], Some(q[0]), l, l');
    }
  }

  // ---------------------------------------------------------------- unlink

  /** The links after x is taken out of whichever list it is in. */
  function Unlinked<N(==)>(l: Links<N>, x: N): Links<N>
    requires x in l.prev && x in l.next
  {
    var p, n := l.prev[x], l.next[x];
    var next := if p.Some? then l.next[p.value := n] else l.next;
    var prev := if n.Some? then l.prev[n.value := p] else l.prev;
    Links(prev[x := None], next[x := None])
  }

  function HeadWithout<N(==)>(l: Links<N>, head: Option<N>, x: N): Option<N>
    requires x in l.prev && x in l.next
  {
    if l.prev[x].Some? then head else l.next[x]
  }

  function TailWithout<N(==)>(l: Links<N>, tail: Option<N>, x: N): Option<N>
    requires x in l.prev && x in l.next
  {
    if l.next[x].Some? then tail else l.prev[x]
  }

  function Removed<N>(q: seq<N>, k: nat): seq<N>
    requires k < |q|
  {
    q[..k] + q[k + 1..]
  }

  lemma UnlinkAt<N>(q: seq<N>, head: Option<N>, l: Links<N>, k: nat, i: nat)
    requires Chain(q, head, l) && k < |q| && i < |q| - 1
    ensures q[k] in l.prev && q[k] in l.next
    ensures LinkedAt(Removed(q, k), None, Unlinked(l, q[k]), i)
  {
    var j := if i < k then i else i + 1;
    assert Removed(q, k)[i] == q[j];
    ChainIsDistinct(q, head, l);
    PairsDiffer(q);
    ChainAt(q, head, l, j);
    ChainAt(q, head, l, k);
  }

  lemma {:induction false} RemovedIsDistinct<N>(q: seq<N>, k: nat)
    requires AllDifferent(q) && k < |q|
    ensures AllDifferent(Removed(q, k))
  {
    if k == 0 {
      assert Removed(q, 0) == q[1..];
    } else {
      RemovedIsDistinct(q[1..], k - 1);
      assert Removed(q, k) == [q[0]] + Removed(q[1..], k - 1);
    }
  }

  lemma UnlinkKeepsChain<N>(q: seq<N>, head: Option<N>, l: Links<N>, k: nat)
    requires Chain(q, head, l) && k < |q|
    ensures q[k] in l.prev && q[k] in l.next
    ensures Chain(Removed(q, k), HeadWithout(l, head, q[k]), Unlinked(l, q[k]))
  {
    var r := Removed(q, k);
    ChainIsDistinct(q, head, l);
    RemovedIsDistinct(q, k);
    ChainAt(q, head, l, k);
    forall i | 0 <= i < |r|
      ensures LinkedAt(r, None, Unlinked(l, q[k]), i)
    {
      UnlinkAt(q, head, l, k, i);
    }
    LinkedAtIsChain(r, Unlinked(l, q[k]));
  }

  /** The last node is the one whose removal moves the tail. */
  lemma UnlinkKeepsTail<N>(q: seq<N>, head: Option<N>, l: Links<N>, k: nat)
    requires Chain(q, head, l) && k < |q|
    ensures q[k] in l.prev && q[k] in l.next
    ensures var r := Removed(q, k);
      TailWithout(l, NodeAt(q, |q| - 1), q[k]) == NodeAt(r, |r| - 1)
  {
    ChainAt(q, head, l, k);
  }

  /** A list is untouched by changes to the links of other nodes. */
  lemma ChainFrame<N>(q: seq<N>, head: Option<N>, l: Links<N>, l': Links<N>)
    requires Chain(q, head, l)
    requires forall x | x in q :: x in l.prev && x in l.next ==> x in l'.prev && x in l'.next && l'.prev[x] == l.prev[x] && l'.next[x] == l.next[x]
    ensures Chain(q, head, l')
  {
    SegmentFrame(q, None, l, l');
  }
}
