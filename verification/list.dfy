/** Circular doubly linked lists with a head node, and the checker that tells
    intact ones from arbitrary graphs of nodes. */
module CircularLists {
  import opened Forests

  /** struct list_node */
  datatype Node = Node(next: Ptr, prev: Ptr)

  type Nodes = map<Ptr, Node>

  // ----- the checker

  /** Every next link leads to a node. */
  ghost predicate Closed(m: Nodes) {
    forall n {:trigger m[n].next} | n in m :: m[n].next in m
  }

  /** The i-th entry is where the one before it points, and points back. */
  ghost predicate EntryAt(m: Nodes, h: Ptr, ks: seq<Ptr>, i: nat) {
    i < |ks| && var before := if i == 0 then h else ks[i - 1];
    before in m && ks[i] in m && ks[i] != h && m[before].next == ks[i] && m[ks[i]].prev == before
  }

  /** The first entries of the list at h are ks. */
  ghost predicate Entries(m: Nodes, h: Ptr, ks: seq<Ptr>) {
    h in m && forall i: nat {:trigger EntryAt(m, h, ks, i)} | i < |ks| :: EntryAt(m, h, ks, i)
  }

  /** Following next from h through ks leads back to h. */
  ghost predicate Returns(m: Nodes, h: Ptr, ks: seq<Ptr>) {
    Entries(m, h, ks) && (var last := if ks == [] then h else ks[|ks| - 1]; last in m && m[last].next == h)
  }

  /** What list_check accepts: the chain of next links returns to h and every node
      on it but the head points back; an empty head points back to itself. */
  ghost predicate Accepted(m: Nodes, h: Ptr) {
    (exists ks :: Returns(m, h, ks)) && (m[h].next == h ==> m[h].prev == h)
  }

  /** Back links keep a chain from running into itself. */
  lemma {:induction false} EntriesDistinct(m: Nodes, h: Ptr, ks: seq<Ptr>, i: nat, j: nat)
    requires Entries(m, h, ks) && i < j < |ks|
    ensures ks[i] != ks[j]
    decreases i
  {
    assert EntryAt(m, h, ks, i) && EntryAt(m, h, ks, j);
    assert EntryAt(m, h, ks, j - 1);
    if i > 0 { EntriesDistinct(m, h, ks, i - 1, j - 1); }
  }

  lemma {:induction false} DistinctFit(ks: seq<Ptr>, a: set<Ptr>)
    requires NoDup(ks) && forall k | k in ks :: k in a
    ensures |ks| <= |a|
  {
    if ks != [] {
      assert ks[0] in ks;
      forall k | k in ks[1..] ensures k in a - {ks[0]} {
        assert k in ks;
      }
      DistinctFit(ks[1..], a - {ks[0]});
    }
  }

  lemma EntriesFit(m: Nodes, h: Ptr, ks: seq<Ptr>)
    requires Entries(m, h, ks)
    ensures |ks| < |m.Keys|
  {
    forall i, j | 0 <= i < j < |ks| ensures ks[i] != ks[j] { EntriesDistinct(m, h, ks, i, j); }
    forall k | k in ks ensures k in m.Keys - {h} {
      var i :| 0 <= i < |ks| && ks[i] == k;
      assert EntryAt(m, h, ks, i);
    }
    DistinctFit(ks, m.Keys - {h});
  }

  /** Two chains from the same head agree as far as both go. */
  lemma {:induction false} EntriesAgree(m: Nodes, h: Ptr, ks: seq<Ptr>, ls: seq<Ptr>, i: nat)
    requires Entries(m, h, ks) && Entries(m, h, ls) && i < |ks| && i < |ls|
    ensures ks[i] == ls[i]
  {
    assert EntryAt(m, h, ks, i) && EntryAt(m, h, ls, i);
    if i > 0 { EntriesAgree(m, h, ks, ls, i - 1); }
  }

  lemma EntriesExtend(m: Nodes, h: Ptr, ks: seq<Ptr>, n: Ptr)
    requires Entries(m, h, ks) && n in m && n != h
    requires var last := if ks == [] then h else ks[|ks| - 1]; last in m && m[last].next == n && m[n].prev == last
    ensures Entries(m, h, ks + [n])
  {
    forall i: nat | i < |ks + [n]| ensures EntryAt(m, h, ks + [n], i) {
      if i < |ks| { assert EntryAt(m, h, ks, i); }
    }
  }

  /** The outcome of list_check; it only aborts when given a string to print. */
  datatype CheckResult = Intact(head: Ptr) | Corrupt | Aborted

  /** list_check, on any graph of nodes. */
  method Check(m: Nodes, h: Ptr, abortstr: bool) returns (r: CheckResult)
    requires h in m && Closed(m)
    ensures if Accepted(m, h) then r == Intact(h) else r == if abortstr then Aborted else Corrupt
    ensures m[h].next == h ==> (r == Intact(h) <==> m[h].prev == h)
    ensures m[h].next != h && NULL !in m ==> (r == Intact(h) <==> exists ks :: IntactButHead(m, h, ks))
  {
    AcceptedExactly(m, h);
    if m[h].next == h {
      if m[h].prev != h {
        return if abortstr then Aborted else Corrupt;
      }
      assert Returns(m, h, []);
      return Intact(h);
    }
    var p, n := h, m[h].next;
    ghost var ks: seq<Ptr> := [];
    while n != h
      invariant n in m && p in m && m[p].next == n && m[h].next != h
      invariant Entries(m, h, ks) && p == if ks == [] then h else ks[|ks| - 1]
      decreases |m.Keys| - |ks|
    {
      EntriesFit(m, h, ks);
      if m[n].prev != p {
        forall ls ensures !Returns(m, h, ls) { CorruptNotReturning(m, h, ks, n, ls); }
        return if abortstr then Aborted else Corrupt;
      }
      EntriesExtend(m, h, ks, n);
      ks := ks + [n];
      p, n := n, m[n].next;
    }
    assert Returns(m, h, ks);
    r := Intact(h);
  }

  /** A wrong back link after ks spoils every chain. */
  lemma CorruptNotReturning(m: Nodes, h: Ptr, ks: seq<Ptr>, n: Ptr, ls: seq<Ptr>)
    requires Entries(m, h, ks) && n in m && n != h
    requires var last := if ks == [] then h else ks[|ks| - 1]; last in m && m[last].next == n && m[n].prev != last
    ensures !Returns(m, h, ls)
  {
    assert |ls| > |ks| && Entries(m, h, ls) ==> EntryAt(m, h, ls, |ks|);
    assert |ls| < |ks| ==> EntryAt(m, h, ks, |ls|);
    if Returns(m, h, ls) {
      var short := if |ls| < |ks| then |ls| else |ks|;
      if short > 0 { EntriesAgree(m, h, ks, ls, short - 1); }
    }
  }

  // ----- intact lists

  /** all[i] and the node after it, around the circle, point at each other. */
  ghost predicate JoinedAt(m: Nodes, all: seq<Ptr>, i: nat) {
    && i < |all| && all[i] in m
    && m[all[i]].next == all[if i + 1 < |all| then i + 1 else 0]
    && m[all[i]].prev == all[if i > 0 then i - 1 else |all| - 1]
  }

  /** The nodes `all` form one circle, in this order. */
  ghost predicate Circle(m: Nodes, all: seq<Ptr>) {
    NoDup(all) && NULL !in all && forall i: nat {:trigger JoinedAt(m, all, i)} | i < |all| :: JoinedAt(m, all, i)
  }

  /** The list with head h has the entries ks. */
  ghost predicate IsList(m: Nodes, h: Ptr, ks: seq<Ptr>) {
    Circle(m, [h] + ks)
  }

  lemma ListParts(m: Nodes, h: Ptr, ks: seq<Ptr>)
    requires IsList(m, h, ks)
    ensures NoDup(ks) && h !in ks && h in m && forall k | k in ks :: k in m && k != h
  {
    var all := [h] + ks;
    assert JoinedAt(m, all, 0);
    forall i, j | 0 <= i < j < |ks| ensures ks[i] != ks[j] { assert all[i + 1] != all[j + 1]; }
    forall k | k in ks ensures k in m && k != h {
      var i :| 0 <= i < |ks| && ks[i] == k;
      assert JoinedAt(m, all, i + 1) && all[i + 1] != all[0];
    }
  }

  /** An intact list is accepted, with its entries. */
  lemma ListAccepted(m: Nodes, h: Ptr, ks: seq<Ptr>)
    requires IsList(m, h, ks)
    ensures Returns(m, h, ks) && Accepted(m, h)
  {
    var all := [h] + ks;
    forall i: nat | i < |ks| ensures EntryAt(m, h, ks, i) {
      assert JoinedAt(m, all, i) && JoinedAt(m, all, i + 1) && all[0] != all[i + 1];
    }
    assert JoinedAt(m, all, 0) && JoinedAt(m, all, |ks|);
    assert ks != [] ==> all[1] != all[0];
    assert Returns(m, h, ks);
  }

  /** The converse needs the one link list_check does not look at: what it accepts is
      an intact list exactly if the head's back link leads to the last entry. */
  lemma AcceptedIntact(m: Nodes, h: Ptr, ks: seq<Ptr>)
    requires Returns(m, h, ks) && NULL !in m
    ensures IsList(m, h, ks) <==> m[h].prev == if ks == [] then h else ks[|ks| - 1]
  {
    var all := [h] + ks;
    assert IsList(m, h, ks) ==> JoinedAt(m, all, 0);
    if m[h].prev == if ks == [] then h else ks[|ks| - 1] {
      forall i, j | 0 <= i < j < |ks| ensures ks[i] != ks[j] { EntriesDistinct(m, h, ks, i, j); }
      forall i | 0 <= i < |ks| ensures ks[i] != h && ks[i] in m { assert EntryAt(m, h, ks, i); }
      forall i: nat | i < |all| ensures JoinedAt(m, all, i) {
        if i > 0 { assert EntryAt(m, h, ks, i - 1); }
        if i < |ks| { assert EntryAt(m, h, ks, i); }
      }
    }
  }

  /** With its head's back link put right, the list at h has the entries ks, and has some. */
  ghost predicate IntactButHead(m: Nodes, h: Ptr, ks: seq<Ptr>) {
    h in m && ks != [] && IsList(m[h := m[h].(prev := ks[|ks| - 1])], h, ks)
  }

  /** The chain of a list with entries returns exactly if the list is intact but for the
      head's back link. */
  lemma ReturnsExactly(m: Nodes, h: Ptr, ks: seq<Ptr>)
    requires h in m && NULL !in m && ks != []
    ensures Returns(m, h, ks) <==> IntactButHead(m, h, ks)
  {
    var n := m[h := m[h].(prev := ks[|ks| - 1])];
    if Returns(m, h, ks) {
      ReturnsAlike(m, n, h, ks);
      AcceptedIntact(n, h, ks);
    }
    if IntactButHead(m, h, ks) {
      ListAccepted(n, h, ks);
      ReturnsAlike(n, m, h, ks);
    }
  }

  lemma ReturnsAlike(m: Nodes, n: Nodes, h: Ptr, ks: seq<Ptr>)
    requires Returns(m, h, ks) && h in n && m.Keys == n.Keys && n[h].next == m[h].next
    requires forall k {:trigger n[k]} | k in m && k != h :: n[k] == m[k]
    ensures Returns(n, h, ks)
  {
    forall i: nat | i < |ks| ensures EntryAt(n, h, ks, i) {
      assert EntryAt(m, h, ks, i);
      if i > 0 { assert EntryAt(m, h, ks, i - 1); }
    }
    if ks != [] { assert EntryAt(m, h, ks, |ks| - 1); }
  }

  lemma AcceptedExactly(m: Nodes, h: Ptr)
    requires h in m
    ensures m[h].next == h ==> (Accepted(m, h) <==> m[h].prev == h)
    ensures m[h].next != h && NULL !in m ==> (Accepted(m, h) <==> exists ks :: IntactButHead(m, h, ks))
  {
    if m[h].next == h {
      assert Returns(m, h, []);
    } else if NULL !in m {
      if Accepted(m, h) {
        var ks :| Returns(m, h, ks);
        ReturnsExactly(m, h, ks);
      }
      if exists ks :: IntactButHead(m, h, ks) {
        var ks :| IntactButHead(m, h, ks);
        ReturnsExactly(m, h, ks);
      }
    }
  }

  /** A list that list_check accepts although its head points back to itself and not
      to the only entry. */
  lemma HeadBackLinkUnchecked()
    ensures var m: Nodes := map[1 := Node(2, 1), 2 := Node(1, 1)];
            Closed(m) && Accepted(m, 1) && forall ks :: !IsList(m, 1, ks)
  {
    var m: Nodes := map[1 := Node(2, 1), 2 := Node(1, 1)];
    assert EntryAt(m, 1, [2], 0);
    assert Returns(m, 1, [2]);
    forall ks ensures !IsList(m, 1, ks) {
      var all := [1] + ks;
      assert IsList(m, 1, ks) ==> JoinedAt(m, all, 0);
      assert NoDup(all) && |all| > 1 ==> all[0] != all[|all| - 1];
    }
  }

  // ----- operations

  class Lists {
    var nodes: Nodes

    /** list_head_init */
    method HeadInit(h: Ptr)
      requires h != NULL
      modifies this
      ensures IsList(nodes, h, []) && nodes == old(nodes)[h := Node(h, h)]
    {
      nodes := nodes[h := Node(h, h)];
      assert forall i: nat | i < 1 :: JoinedAt(nodes, [h] + [], i);
    }

    /** list_add: n need not be initialised. */
    method Add(h: Ptr, n: Ptr, ghost ks: seq<Ptr>)
      requires IsList(nodes, h, ks) && n in nodes && n != h && n !in ks && n != NULL
      modifies this
      ensures IsList(nodes, h, [n] + ks) && Untouched(old(nodes), nodes, [h, n] + ks)
    {
      ghost var all := [h] + ks;
      assert JoinedAt(nodes, all, 0);
      ghost var m := nodes;
      nodes := nodes[n := Node(nodes[h].next, h)];
      assert ks != [] ==> JoinedAt(m, all, 1);
      nodes := nodes[nodes[h].next := nodes[nodes[h].next].(prev := n)];
      nodes := nodes[h := nodes[h].(next := n)];
      Inserted(m, nodes, all, n, 1);
      assert [h] + ([n] + ks) == all[..1] + [n] + all[1..];
    }

    /** list_add_tail */
    method AddTail(h: Ptr, n: Ptr, ghost ks: seq<Ptr>)
      requires IsList(nodes, h, ks) && n in nodes && n != h && n !in ks && n != NULL
      modifies this
      ensures IsList(nodes, h, ks + [n]) && Untouched(old(nodes), nodes, [h, n] + ks)
    {
      ghost var all := [h] + ks;
      assert JoinedAt(nodes, all, 0) && JoinedAt(nodes, all, |ks|);
      ghost var m := nodes;
      nodes := nodes[n := Node(h, nodes[h].prev)];
      nodes := nodes[nodes[h].prev := nodes[nodes[h].prev].(next := n)];
      nodes := nodes[h := nodes[h].(prev := n)];
      Inserted(m, nodes, all, n, |all|);
      assert [h] + (ks + [n]) == all[..|all|] + [n] + all[|all|..];
    }

    /** list_del */
    method Del(n: Ptr, ghost h: Ptr, ghost ks: seq<Ptr>)
      requires IsList(nodes, h, ks) && n in ks
      modifies this
      ensures IsList(nodes, h, Without(ks, n)) && Untouched(old(nodes), nodes, [h] + ks)
      ensures n in nodes && nodes[n] == old(nodes)[n]
    {
      ghost var m, all, j := nodes, [h] + ks, Spot(ks, n);
      DelParts(nodes, h, ks, j);
      var next, prev := nodes[n].next, nodes[n].prev;
      nodes := nodes[next := nodes[next].(prev := prev)];
      nodes := nodes[prev := nodes[prev].(next := next)];
      hide Circle;
      Deleted(m, nodes, all, j + 1);
      assert [h] + Without(ks, n) == all[..j + 1] + all[j + 2..];
    }

    /** list_empty */
    method Empty(h: Ptr, ghost ks: seq<Ptr>) returns (r: bool)
      requires IsList(nodes, h, ks)
      ensures r <==> ks == []
    {
      assert JoinedAt(nodes, [h] + ks, 0);
      r := nodes[h].next == h;
    }

    /** list_is_last and list_is_first */
    method IsLast(h: Ptr, n: Ptr, ghost ks: seq<Ptr>) returns (r: bool)
      requires IsList(nodes, h, ks) && n in ks
      ensures r <==> n == ks[|ks| - 1]
    {
      ListParts(nodes, h, ks);
      ghost var all := [h] + ks;
      ghost var j :| 0 <= j < |ks| && ks[j] == n;
      assert JoinedAt(nodes, all, j + 1);
      assert j + 1 < |ks| ==> all[j + 2] in ks;
      r := nodes[n].next == h;
    }

    method IsFirst(h: Ptr, n: Ptr, ghost ks: seq<Ptr>) returns (r: bool)
      requires IsList(nodes, h, ks) && n in ks
      ensures r <==> n == ks[0]
    {
      ListParts(nodes, h, ks);
      ghost var all := [h] + ks;
      ghost var j :| 0 <= j < |ks| && ks[j] == n;
      assert JoinedAt(nodes, all, j + 1);
      assert j > 0 ==> all[j] in ks;
      r := nodes[n].prev == h;
    }

    /** list_for_each_safe, with a body that deletes some of the entries it is at. */
    method ForEachSafe(h: Ptr, drop: set<Ptr>, ghost ks: seq<Ptr>) returns (visited: seq<Ptr>)
      requires IsList(nodes, h, ks)
      modifies this
      ensures visited == ks
      ensures IsList(nodes, h, Dropped(ks, drop)) && Untouched(old(nodes), nodes, [h] + ks)
    {
      hide IsList, Circle, Dropped, Without, NoDup, Remaining, Walking, Untouched;
      visited := [];
      ghost var n: nat := 0;
      ghost var m := nodes;
      WalkStart(m, h, drop, ks);
      var i := nodes[h].next;
      var nxt := nodes[i].next;
      while i != h
        invariant n <= |ks| && visited == ks[..n] && i == (if n < |ks| then ks[n] else h)
        invariant Walking(nodes, h, drop, ks, n, nxt) && Untouched(m, nodes, [h] + ks)
        decreases |ks| - n
      {
        WalkAt(nodes, h, drop, ks, n, nxt);
        visited := visited + [i];
        if i in drop {
          ghost var before, left := nodes, Remaining(ks, drop, n);
          Del(i, h, left);
          UntouchedMore(m, before, nodes, [h] + ks, [h] + left);
        }
        n := n + 1;
        WalkFrom(nodes, h, drop, ks, n);
        i := nxt;
        nxt := nodes[i].next;
      }
      WalkEnd(nodes, h, drop, ks, n, nxt);
    }
  }

  /** What is left of the list when the first n entries have been visited. */
  ghost function Remaining(ks: seq<Ptr>, drop: set<Ptr>, n: nat): seq<Ptr>
    requires n <= |ks|
  {
    Dropped(ks[..n], drop) + ks[n..]
  }

  /** That is the list, and what comes after the entry to be visited is known. */
  ghost predicate Walking(m: Nodes, h: Ptr, drop: set<Ptr>, ks: seq<Ptr>, n: nat, nxt: Ptr) {
    n <= |ks| && IsList(m, h, Remaining(ks, drop, n))
    && (n < |ks| ==> nxt == if n + 1 < |ks| then ks[n + 1] else h)
  }

  lemma WalkStart(m: Nodes, h: Ptr, drop: set<Ptr>, ks: seq<Ptr>)
    requires IsList(m, h, ks)
    ensures h in m && m[h].next in m && m[h].next == (if ks == [] then h else ks[0])
    ensures Walking(m, h, drop, ks, 0, m[m[h].next].next) && ks[..0] == [] && Untouched(m, m, [h] + ks)
  {
    hide IsList, Circle;
    DroppedNone(drop);
    assert Remaining(ks, drop, 0) == ks by {
      assert ks[..0] == [] && [] + ks[0..] == ks;
    }
    WalkFrom(m, h, drop, ks, 0);
    EntryLinks(m, h, ks, 0);
  }

  lemma WalkFrom(m: Nodes, h: Ptr, drop: set<Ptr>, ks: seq<Ptr>, n: nat)
    requires n <= |ks| && IsList(m, h, Remaining(ks, drop, n))
    ensures var i := if n < |ks| then ks[n] else h; i in m && Walking(m, h, drop, ks, n, m[i].next)
  {
    hide IsList, Without;
    NextEntry(m, h, Dropped(ks[..n], drop), ks, n);
  }

  lemma WalkAt(m: Nodes, h: Ptr, drop: set<Ptr>, ks: seq<Ptr>, n: nat, nxt: Ptr)
    requires Walking(m, h, drop, ks, n, nxt) && n < |ks|
    ensures var left := Remaining(ks, drop, n);
      && ks[n] != h && nxt == (if n + 1 < |ks| then ks[n + 1] else h)
      && ks[n] in left && IsList(m, h, left) && (forall k | k in [h] + left :: k in [h] + ks)
      && Remaining(ks, drop, n + 1) == if ks[n] in drop then Without(left, ks[n]) else left
    ensures ks[..n] + [ks[n]] == ks[..n + 1]
  {
    hide IsList, Without, Dropped;
    NextEntry(m, h, Dropped(ks[..n], drop), ks, n);
    DroppedNext(ks, drop, n);
    DroppedIn(ks[..n], drop);
  }

  lemma WalkEnd(m: Nodes, h: Ptr, drop: set<Ptr>, ks: seq<Ptr>, n: nat, nxt: Ptr)
    requires Walking(m, h, drop, ks, n, nxt) && (n < |ks| ==> ks[n] == h)
    ensures n == |ks| && ks[..n] == ks && IsList(m, h, Dropped(ks, drop))
  {
    hide IsList, Dropped;
    NextEntry(m, h, Dropped(ks[..n], drop), ks, n);
    assert n == |ks|;
    assert ks[..n] == ks && ks[n..] == [];
    assert Dropped(ks, drop) + [] == Dropped(ks, drop);
  }

  lemma DroppedNone(drop: set<Ptr>)
    ensures Dropped([], drop) == []
  {
  }

  lemma Slices(done: seq<Ptr>, ks: seq<Ptr>, n: nat)
    requires n < |ks|
    ensures var ls := done + ks[n..];
      && |done| < |ls| == |done| + |ks| - n && ls[..|done|] == done && ls[|done|] == ks[n]
      && ls[|done| + 1..] == ks[n + 1..] && ls == done + [ks[n]] + ks[n + 1..]
      && (n + 1 < |ks| ==> ls[|done| + 1] == ks[n + 1]) && (done == [] ==> ls[0] == ks[n])
  {
  }

  /** What lies after the entries `done` that have been visited and kept. */
  lemma NextEntry(m: Nodes, h: Ptr, done: seq<Ptr>, ks: seq<Ptr>, n: nat)
    requires n <= |ks| && IsList(m, h, done + ks[n..])
    ensures h in m && m[h].next in m && (done == [] ==> m[h].next == if n < |ks| then ks[n] else h)
    ensures n < |ks| ==>
              && ks[n] != h && ks[n] in m && ks[n] in done + ks[n..]
              && m[ks[n]].next == (if n + 1 < |ks| then ks[n + 1] else h)
              && Without(done + ks[n..], ks[n]) == done + ks[n + 1..]
              && done + ks[n..] == done + [ks[n]] + ks[n + 1..]
  {
    hide NoDup, Without, IsList, Circle, JoinedAt;
    var ls := done + ks[n..];
    ListParts(m, h, ls);
    EntryLinks(m, h, ls, 0);
    if n < |ks| {
      Slices(done, ks, n);
      EntryLinks(m, h, ls, |done|);
      WithoutAt(ls, ks[n], |done|);
    }
  }

  /** The first link of a list, and the one that leads on from an entry. */
  lemma EntryLinks(m: Nodes, h: Ptr, ks: seq<Ptr>, j: nat)
    requires IsList(m, h, ks)
    ensures h in m && m[h].next in m && m[h].next == if ks == [] then h else ks[0]
    ensures j < |ks| ==> ks[j] in m && m[ks[j]].next == if j + 1 < |ks| then ks[j + 1] else h
  {
    hide NoDup;
    var all := [h] + ks;
    assert JoinedAt(m, all, 0) && JoinedAt(m, all, if ks == [] then 0 else 1);
    if j < |ks| { assert JoinedAt(m, all, j + 1); }
  }

  ghost function Spot(ks: seq<Ptr>, n: Ptr): (j: nat)
    requires n in ks
    ensures j < |ks| && ks[j] == n
  {
    if ks[0] == n then 0 else 1 + Spot(ks[1..], n)
  }

  /** The neighbours of the entry to be deleted. */
  lemma DelParts(m: Nodes, h: Ptr, ks: seq<Ptr>, j: nat)
    requires IsList(m, h, ks) && j < |ks|
    ensures var n, all := ks[j], [h] + ks;
            && n in m && m[n].next == all[if j + 2 < |all| then j + 2 else 0] && m[n].prev == all[j]
            && m[n].next in m && m[n].prev in m && m[n].next != n && m[n].prev != n
            && Without(ks, n) == ks[..j] + ks[j + 1..]
            && m[n].next in all && m[n].prev in all
  {
    var all := [h] + ks;
    ListParts(m, h, ks);
    assert JoinedAt(m, all, j + 1) && JoinedAt(m, all, j);
    assert JoinedAt(m, all, if j + 2 < |all| then j + 2 else 0);
    WithoutAt(ks, ks[j], j);
  }

  ghost predicate Untouched(m0: Nodes, m1: Nodes, ks: seq<Ptr>) {
    m1.Keys == m0.Keys && forall k {:trigger m1[k]} | k in m0 && k !in ks :: m1[k] == m0[k]
  }

  lemma UntouchedMore(m0: Nodes, m1: Nodes, m2: Nodes, ks: seq<Ptr>, ls: seq<Ptr>)
    requires Untouched(m0, m1, ks) && Untouched(m1, m2, ls) && forall k | k in ls :: k in ks
    ensures Untouched(m0, m2, ks)
  {
  }

  lemma {:induction false} DroppedIn(ks: seq<Ptr>, drop: set<Ptr>)
    ensures forall k | k in Dropped(ks, drop) :: k in ks
  {
    if ks != [] { DroppedIn(ks[..|ks| - 1], drop); }
  }

  /** The entries that are not dropped, in their order. */
  ghost function Dropped(ks: seq<Ptr>, drop: set<Ptr>): seq<Ptr> {
    if ks == [] then []
    else Dropped(ks[..|ks| - 1], drop) + (if ks[|ks| - 1] in drop then [] else [ks[|ks| - 1]])
  }

  lemma DroppedNext(ks: seq<Ptr>, drop: set<Ptr>, n: nat)
    requires n < |ks|
    ensures Dropped(ks[..n + 1], drop) == Dropped(ks[..n], drop) + (if ks[n] in drop then [] else [ks[n]])
    ensures Dropped(ks[..n], drop) + ks[n..] == Dropped(ks[..n], drop) + [ks[n]] + ks[n + 1..]
  {
    assert ks[..n + 1][..n] == ks[..n];
  }

  /** m1 is m0 with n put between all[i - 1] and the node after it. */
  lemma Inserted(m0: Nodes, m1: Nodes, all: seq<Ptr>, n: Ptr, i: nat)
    requires Circle(m0, all) && 0 < i <= |all| && n in m0 && n !in all && n != NULL
    requires var a, b := all[i - 1], all[if i < |all| then i else 0];
             && m1.Keys == m0.Keys && m1[n] == Node(b, a)
             && a in m0 && b in m0
             && forall k {:trigger m1[k]} | k in m0 && k != n ::
                  m1[k] == m0[k].(next := if k == a then n else m0[k].next, prev := if k == b then n else m0[k].prev)
    ensures Circle(m1, all[..i] + [n] + all[i..])
  {
    var now := all[..i] + [n] + all[i..];
    forall k | k in now ensures k != NULL { assert k == n || k in all; }
    forall j: nat | j < |now| ensures JoinedAt(m1, now, j) {
      if j < i { assert JoinedAt(m0, all, j) && now[j] == all[j] && all[j] in all; }
      if j > i { assert JoinedAt(m0, all, j - 1) && now[j] == all[j - 1] && all[j - 1] in all; }
    }
  }

  /** m1 is m0 with the neighbours of all[i] joined. */
  lemma Deleted(m0: Nodes, m1: Nodes, all: seq<Ptr>, i: nat)
    requires Circle(m0, all) && 0 < i < |all|
    requires var a, b := all[i - 1], all[if i + 1 < |all| then i + 1 else 0];
             && m1.Keys == m0.Keys
             && forall k {:trigger m1[k]} | k in m0 ::
                  m1[k] == m0[k].(next := if k == a then b else m0[k].next, prev := if k == b then a else m0[k].prev)
    ensures Circle(m1, all[..i] + all[i + 1..])
  {
    var now := all[..i] + all[i + 1..];
    forall k | k in now ensures k != NULL { assert k in all; }
    forall j: nat | j < |now| ensures JoinedAt(m1, now, j) {
      if j < i { assert JoinedAt(m0, all, j) && now[j] == all[j]; }
      if j >= i { assert JoinedAt(m0, all, j + 1) && now[j] == all[j + 1]; }
    }
  }
}
