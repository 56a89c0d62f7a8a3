/** The chunks as they lie in memory, and when they stand for a forest. */
module Memories {
  import opened Forests

  /** What is stored in a chunk's destructor slot. A user destructor either
      always succeeds or always refuses, and leaves the heap alone. */
  datatype Destructor = NoDestructor | DropReference | Succeeds | Refuses | Running

  /** struct talloc_chunk, with the payload of a reference handle beside it. */
  datatype Chunk = Chunk(
    next: Ptr, prev: Ptr, parent: Ptr, child: Ptr,
    refs: Ptr,
    destructor: Destructor,
    size: nat,
    loop: bool,
    nextRef: Ptr, prevRef: Ptr, ptr: Ptr)

  /** The chunks that are allocated. An address without an entry must not be used. */
  type Memory = map<Ptr, Chunk>

  ghost function Nth(ks: seq<Ptr>, i: int): Ptr {
    if 0 <= i < |ks| then ks[i] else NULL
  }

  // ----- sibling lists

  /** The links of the i-th child of c. Only the first child stores its parent. */
  ghost predicate LinkAt(m: Memory, c: Ptr, ks: seq<Ptr>, i: nat) {
    && i < |ks| && ks[i] in m
    && m[ks[i]].parent == (if i == 0 then c else NULL)
    && m[ks[i]].prev == Nth(ks, i - 1)
    && m[ks[i]].next == Nth(ks, i + 1)
  }

  /** ks are the children of c, linked in this order. */
  ghost predicate Linked(m: Memory, c: Ptr, ks: seq<Ptr>) {
    && c in m && m[c].child == Nth(ks, 0)
    && (forall k {:trigger k in ks} | k in ks :: k in m)
    && forall i: nat {:trigger LinkAt(m, c, ks, i)} | i < |ks| :: LinkAt(m, c, ks, i)
  }

  /** Every live chunk is linked to its children. */
  ghost predicate Siblings(m: Memory, s: Forest)
    requires Keyed(s)
  {
    forall c {:trigger s.kids[c]} | c in s.live :: Linked(m, c, s.kids[c])
  }

  /** A chunk at top level has no links. */
  ghost predicate Tops(m: Memory, s: Forest)
    requires Keyed(s) && m.Keys == s.live
  {
    forall c {:trigger s.up[c]} | c in s.live && c !in s.loose && s.up[c] == NULL ::
      m[c].next == NULL && m[c].prev == NULL && m[c].parent == NULL
  }

  /** A loose chunk can still find its former parent: through its own parent
      link or through a chunk that is still listed there. */
  ghost predicate Stales(m: Memory, s: Forest)
    requires Keyed(s) && m.Keys == s.live
  {
    forall c {:trigger c in s.loose} | c in s.loose ::
      if m[c].prev == NULL then m[c].parent == s.up[c]
      else s.up[c] != NULL && m[c].prev in s.live && m[c].prev !in s.loose && s.up[m[c].prev] == s.up[c]
  }

  ghost predicate Tree(m: Memory, s: Forest) {
    Keyed(s) && m.Keys == s.live && Siblings(m, s) && Tops(m, s) && Stales(m, s)
  }

  ghost predicate SameLinks(a: Chunk, b: Chunk) {
    a.next == b.next && a.prev == b.prev && a.parent == b.parent
  }

  /** A list nobody touches stays linked. */
  lemma LinkedKept(m0: Memory, m1: Memory, c: Ptr, ks: seq<Ptr>)
    requires Linked(m0, c, ks) && c in m1 && m1[c].child == m0[c].child
    requires forall k {:trigger k in ks} | k in ks :: k in m0 && k in m1 && SameLinks(m0[k], m1[k])
    ensures Linked(m1, c, ks)
  {
    forall i: nat | i < |ks| ensures LinkAt(m1, c, ks, i) {
      assert ks[i] in ks && LinkAt(m0, c, ks, i);
    }
  }

  // ----- leaving a sibling list

  /** m1 is m0 after ks[j] has left the list ks of the children of q. */
  ghost predicate Relinked(m0: Memory, m1: Memory, q: Ptr, ks: seq<Ptr>, j: nat)
    requires j < |ks| && q in m0
  {
    && m1.Keys == m0.Keys
    && m1[q] == m0[q].(child := if j == 0 then Nth(ks, 1) else m0[q].child)
    && (ks[j] in m0 && m1[ks[j]] == if j == 0 then m0[ks[j]].(next := NULL, prev := NULL) else m0[ks[j]])
    && forall k {:trigger m1[k]} | k in m0 && k != q && k != ks[j] ::
         m1[k] == m0[k].(
           next := if j > 0 && k == ks[j - 1] then Nth(ks, j + 1) else m0[k].next,
           prev := if j + 1 < |ks| && k == ks[j + 1] then Nth(ks, j - 1) else m0[k].prev,
           parent := if j == 0 && 1 < |ks| && k == ks[1] then q else m0[k].parent)
  }

  lemma GapLink(m0: Memory, m1: Memory, q: Ptr, ks: seq<Ptr>, j: nat, rest: seq<Ptr>, i: nat, o: nat)
    requires j < |ks| && rest == ks[..j] + ks[j + 1..] && i < |rest| && o == (if i < j then i else i + 1)
    requires q !in ks && NoDup(ks) && q in m0 && Relinked(m0, m1, q, ks, j) && LinkAt(m0, q, ks, o)
    ensures LinkAt(m1, q, rest, i)
  {
    assert ks[o] in ks && ks[o] != ks[j];
  }

  lemma GapClosed(m0: Memory, m1: Memory, q: Ptr, ks: seq<Ptr>, j: nat)
    requires Linked(m0, q, ks) && q !in ks && NoDup(ks) && j < |ks|
    requires Relinked(m0, m1, q, ks, j)
    ensures Linked(m1, q, Without(ks, ks[j]))
  {
    WithoutAt(ks, ks[j], j);
    var rest := ks[..j] + ks[j + 1..];
    hide Without, NoDup, LinkAt;
    forall k {:trigger k in rest} | k in rest ensures k in m1 { assert k in ks; }
    forall i: nat | i < |rest| ensures LinkAt(m1, q, rest, i) {
      var o := if i < j then i else i + 1;
      assert LinkAt(m0, q, ks, o);
      GapLink(m0, m1, q, ks, j, rest, i, o);
    }
  }

  lemma SiblingsDetached(m0: Memory, m1: Memory, s: Forest, c: Ptr, j: nat)
    requires WF(s) && c in s.live && c !in s.loose && s.up[c] != NULL
    requires Siblings(m0, s) && m0.Keys == s.live
    requires var ks := s.kids[s.up[c]]; j < |ks| && ks[j] == c && Relinked(m0, m1, s.up[c], ks, j)
    ensures Siblings(m1, Unlink(s, c))
  {
    var q, t := s.up[c], Unlink(s, c);
    assert q !in s.kids[q];
    GapClosed(m0, m1, q, s.kids[q], j);
    hide NoDup, RefsWF, Linked;
    forall b {:trigger t.kids[b]} | b in t.live ensures Linked(m1, b, t.kids[b]) {
      if b != q {
        assert forall k | k in s.kids[b] :: k !in s.kids[q] && k != c;
        assert Linked(m0, b, s.kids[b]);
        LinkedKept(m0, m1, b, s.kids[b]);
      }
    }
  }

  /** No loose chunk needs c to find its parent. */
  ghost predicate Untraced(m: Memory, s: Forest, c: Ptr)
    requires s.loose <= m.Keys
  {
    forall d {:trigger d in s.loose} | d in s.loose :: m[d].prev != c
  }

  /** The chunks that are in no list keep their links when others leave or join one. */
  lemma LooseKept(m0: Memory, m1: Memory, s: Forest, t: Forest, c: Ptr)
    requires Keyed(s) && Keyed(t) && m0.Keys == s.live && m1.Keys == t.live == s.live
    requires Tops(m0, s) && Stales(m0, s)
    requires s.loose <= t.loose + {c} && t.loose <= s.loose + {c}
    requires forall d {:trigger t.up[d]} {:trigger s.up[d]} | d in s.live && d != c :: t.up[d] == s.up[d]
    requires forall d {:trigger d in s.loose} | d in s.loose && d != c :: m0[d].prev != c
    requires forall d | d in s.live && (d in s.loose || s.up[d] == NULL) && d != c :: SameLinks(m0[d], m1[d])
    requires c in t.live
    requires if c in t.loose then (if m1[c].prev == NULL then m1[c].parent == t.up[c]
               else t.up[c] != NULL && m1[c].prev in t.live && m1[c].prev !in t.loose && t.up[m1[c].prev] == t.up[c])
             else t.up[c] == NULL ==> m1[c].next == NULL && m1[c].prev == NULL && m1[c].parent == NULL
    ensures Tops(m1, t) && Stales(m1, t)
  {
  }

  lemma DetachedTrace(m0: Memory, m1: Memory, s: Forest, c: Ptr, j: nat)
    requires WF(s) && c in s.live && c !in s.loose && s.up[c] != NULL
    requires Tree(m0, s) && Untraced(m0, s, c)
    requires var ks := s.kids[s.up[c]]; j < |ks| && ks[j] == c && Relinked(m0, m1, s.up[c], ks, j)
    ensures if m1[c].prev == NULL then m1[c].parent == s.up[c]
            else m1[c].prev in s.live - s.loose - {c} && s.up[m1[c].prev] == s.up[c]
    ensures forall d {:trigger s.up[d]} | d in s.live && (d in s.loose || s.up[d] == NULL) && d != c :: SameLinks(m0[d], m1[d])
  {
    var q, ks := s.up[c], s.kids[s.up[c]];
    hide RefsWF, Tops, Stales;
    assert Linked(m0, q, ks) && LinkAt(m0, q, ks, j);
    assert j > 0 ==> ks[j - 1] in ks && ks[j - 1] != c;
    hide NoDup, Linked, Siblings;
    assert forall d | d in s.live && (d in s.loose || s.up[d] == NULL) && d != c :: d !in ks;
    assert forall d | d in s.live && (d in s.loose || s.up[d] == NULL) && d != c :: SameLinks(m0[d], m1[d]);
  }

  /** Where c is listed, if anywhere. */
  lemma Place(m: Memory, s: Forest, c: Ptr) returns (j: nat)
    requires WF(s) && Tree(m, s) && c in s.live && c !in s.loose
    ensures NULL !in m && c in m && (s.up[c] != NULL ==> s.up[c] in s.live)
    ensures if s.up[c] == NULL then m[c].next == NULL && m[c].prev == NULL && m[c].parent == NULL
            else var ks := s.kids[s.up[c]];
                 j < |ks| && ks[j] == c && Linked(m, s.up[c], ks) && s.up[c] !in ks && NoDup(ks) &&
                 m[c].prev == Nth(ks, j - 1) && m[c].parent == if j == 0 then s.up[c] else NULL
  {
    j := 0;
    if s.up[c] != NULL {
      var ks := s.kids[s.up[c]];
      j :| 0 <= j < |ks| && ks[j] == c;
      assert Linked(m, s.up[c], ks) && LinkAt(m, s.up[c], ks, j);
    }
  }

  ghost function Position(ks: seq<Ptr>, c: Ptr): nat {
    if ks == [] || ks[0] == c then 0 else 1 + Position(ks[1..], c)
  }

  lemma {:induction false} PositionAt(ks: seq<Ptr>, j: nat)
    requires j < |ks| && NoDup(ks)
    ensures Position(ks, ks[j]) == j
  {
    if j > 0 {
      assert ks[1..][j - 1] == ks[j] && ks[0] != ks[j];
      PositionAt(ks[1..], j - 1);
    }
  }

  /** One step towards the first sibling, which stores the parent. */
  lemma StepLeft(m: Memory, s: Forest, c: Ptr)
    requires WF(s) && Tree(m, s) && c in s.live
    ensures c in m && (m[c].prev == NULL ==> m[c].parent == s.up[c])
    ensures m[c].prev != NULL ==>
              var p := m[c].prev;
              && s.up[c] != NULL && s.up[c] in s.live && p in s.live && p !in s.loose && s.up[p] == s.up[c]
              && (c !in s.loose ==> Position(s.kids[s.up[c]], p) < Position(s.kids[s.up[c]], c))
  {
    if c !in s.loose {
      var j := Place(m, s, c);
      if s.up[c] != NULL {
        var ks := s.kids[s.up[c]];
        PositionAt(ks, j);
        if j > 0 {
          assert ks[j - 1] in ks;
          PositionAt(ks, j - 1);
        }
      }
    }
  }

  lemma TreeDetached(m0: Memory, m1: Memory, s: Forest, c: Ptr, j: nat)
    requires WF(s) && c in s.live && c !in s.loose && s.up[c] != NULL && Keyed(Unlink(s, c))
    requires Tree(m0, s) && Untraced(m0, s, c)
    requires var ks := s.kids[s.up[c]]; j < |ks| && ks[j] == c && Relinked(m0, m1, s.up[c], ks, j)
    ensures Tree(m1, Unlink(s, c))
  {
    assert s.up[c] in s.live;
    hide NoDup, RefsWF, TreeWF, Siblings, Linked, Tops, Stales;
    SiblingsDetached(m0, m1, s, c, j);
    DetachedTrace(m0, m1, s, c, j);
    LooseKept(m0, m1, s, Unlink(s, c), c);
  }

  lemma TreeDetachedTop(m: Memory, s: Forest, c: Ptr)
    requires WF(s) && c in s.live && c !in s.loose && s.up[c] == NULL && Keyed(Unlink(s, c))
    requires Tree(m, s) && Untraced(m, s, c)
    ensures Tree(m, Unlink(s, c))
  {
    hide TreeWF, RefsWF, Linked;
    assert s.up[c] == NULL;
  }

  // ----- joining a sibling list

  /** m1 is m0 after c has been put before the children ks of q. */
  ghost predicate Pushed(m0: Memory, m1: Memory, q: Ptr, ks: seq<Ptr>, c: Ptr)
    requires q in m0 && c in m0
  {
    && m1.Keys == m0.Keys
    && m1[q] == m0[q].(child := c)
    && m1[c] == m0[c].(next := Nth(ks, 0), prev := NULL, parent := q)
    && forall k {:trigger m1[k]} | k in m0 && k != q && k != c ::
         m1[k] == if k == Nth(ks, 0) then m0[k].(prev := c, parent := NULL) else m0[k]
  }

  /** Pushing c does not depend on the links c had. */
  lemma PushedOver(m: Memory, m0: Memory, m1: Memory, q: Ptr, ks: seq<Ptr>, c: Ptr)
    requires c in m && q in m && q != c && m0 == m[c := m[c].(prev := NULL, parent := q)] && Pushed(m, m1, q, ks, c)
    ensures Pushed(m0, m1, q, ks, c) && OnlyLinks(m0, m1)
  {
  }

  lemma FirstLinked(m0: Memory, m1: Memory, q: Ptr, ks: seq<Ptr>, c: Ptr)
    requires Linked(m0, q, ks) && q !in ks && c !in ks && c != q && NoDup(ks) && NULL !in ks && c in m0
    requires Pushed(m0, m1, q, ks, c)
    ensures Linked(m1, q, [c] + ks)
  {
    var all := [c] + ks;
    forall k | k in all ensures k in m1 { assert k == c || k in ks; }
    forall i: nat | i < |all| ensures LinkAt(m1, q, all, i) {
      if i > 0 {
        assert all[i] == ks[i - 1] && ks[i - 1] in ks && LinkAt(m0, q, ks, i - 1);
      }
    }
  }

  lemma SiblingsAttached(m0: Memory, m1: Memory, s: Forest, c: Ptr, q: Ptr)
    requires WF(s) && c in s.loose && q in s.live && c != q && m0.Keys == s.live && Siblings(m0, s)
    requires Pushed(m0, m1, q, s.kids[q], c)
    ensures Siblings(m1, Attach(s, c, q))
  {
    var t := Attach(s, c, q);
    assert q !in s.kids[q] && c !in s.kids[q];
    FirstLinked(m0, m1, q, s.kids[q], c);
    assert s.kids[q] != [] ==> s.kids[q][0] in s.kids[q];
    hide NoDup, RefsWF, Linked;
    forall b {:trigger t.kids[b]} | b in t.live ensures Linked(m1, b, t.kids[b]) {
      if b != q {
        assert forall k | k in s.kids[b] :: k !in s.kids[q] && k != c;
        assert Linked(m0, b, s.kids[b]);
        LinkedKept(m0, m1, b, s.kids[b]);
      }
    }
  }

  /** Where c will be listed. */
  lemma PlaceToJoin(m: Memory, s: Forest, c: Ptr, q: Ptr)
    requires WF(s) && Tree(m, s) && c in s.loose && q in s.live && s.rank[q] < s.rank[c]
    ensures c in m && q in m && c != q && q != NULL
    ensures c !in s.kids[q] && q !in s.kids[q] && NULL !in s.kids[q] && Linked(m, q, s.kids[q]) && NULL !in m
    ensures forall d {:trigger d in s.loose} | d in s.loose :: d != Nth(s.kids[q], 0)
    ensures m[q].child == Nth(s.kids[q], 0) && forall k {:trigger k in s.kids[q]} | k in s.kids[q] :: k in m
  {
    assert s.kids[q] != [] ==> s.kids[q][0] in s.kids[q];
  }

  lemma TreeAttached(m0: Memory, m1: Memory, s: Forest, c: Ptr, q: Ptr)
    requires WF(s) && c in s.loose && q in s.live && c != q && Tree(m0, s) && Keyed(Attach(s, c, q))
    requires Pushed(m0, m1, q, s.kids[q], c)
    ensures Tree(m1, Attach(s, c, q))
  {
    hide NoDup, TreeWF, RefsWF, Siblings, Linked, Tops, Stales;
    SiblingsAttached(m0, m1, s, c, q);
    AttachedTrace(m0, m1, s, c, q);
    LooseKept(m0, m1, s, Attach(s, c, q), c);
  }

  lemma AttachedTrace(m0: Memory, m1: Memory, s: Forest, c: Ptr, q: Ptr)
    requires WF(s) && c in s.loose && q in s.live && c != q && Tree(m0, s)
    requires Pushed(m0, m1, q, s.kids[q], c)
    ensures q != NULL && forall d {:trigger s.up[d]} | d in s.live && (d in s.loose || s.up[d] == NULL) && d != c :: SameLinks(m0[d], m1[d])
    ensures forall d {:trigger d in s.loose} | d in s.loose :: m0[d].prev != c
  {
    hide NoDup, RefsWF, Siblings, Linked, Tops;
    assert s.kids[q] != [] ==> s.kids[q][0] in s.kids[q];
  }

  lemma TreeAttachedTop(m0: Memory, m1: Memory, s: Forest, c: Ptr)
    requires WF(s) && c in s.loose && Tree(m0, s) && Keyed(Attach(s, c, NULL))
    requires m1 == m0[c := m0[c].(next := NULL, prev := NULL, parent := NULL)]
    ensures Tree(m1, Attach(s, c, NULL))
  {
    var t := Attach(s, c, NULL);
    hide NoDup, RefsWF, Linked;
    forall b {:trigger t.kids[b]} | b in t.live ensures Linked(m1, b, t.kids[b]) {
      assert forall k | k in s.kids[b] :: k != c;
      assert Linked(m0, b, s.kids[b]);
      LinkedKept(m0, m1, b, s.kids[b]);
    }
    hide TreeWF, Siblings;
    assert forall d | d in s.loose :: m0[d].prev != c;
    LooseKept(m0, m1, s, t, c);
  }

  // ----- memory comes and goes

  /** The tree is untouched by changes to reference lists and marks. */
  lemma TreeKept(m0: Memory, m1: Memory, s: Forest, t: Forest)
    requires Tree(m0, s) && Keyed(t) && m1.Keys == t.live == s.live
    requires t.up == s.up && t.kids == s.kids && t.loose == s.loose
    requires forall k {:trigger m1[k]} | k in s.live :: SameLinks(m0[k], m1[k]) && m1[k].child == m0[k].child
    ensures Tree(m1, t)
  {
    hide Linked;
    forall c {:trigger t.kids[c]} | c in t.live ensures Linked(m1, c, t.kids[c]) {
      assert Linked(m0, c, s.kids[c]);
      assert forall k | k in s.kids[c] :: k in m0 by { LinkedIn(m0, c, s.kids[c]); }
      LinkedKept(m0, m1, c, s.kids[c]);
    }
  }

  lemma LinkedIn(m: Memory, c: Ptr, ks: seq<Ptr>)
    requires Linked(m, c, ks)
    ensures forall k | k in ks :: k in m
  {
  }

  lemma TreeRemoved(m: Memory, s: Forest, c: Ptr)
    requires WF(s) && c in s.loose && Tree(m, s) && Keyed(Remove(s, c))
    ensures Tree(m - {c}, Remove(s, c))
  {
    var m1, t := m - {c}, Remove(s, c);
    hide NoDup, RefsWF, Linked;
    forall b {:trigger t.kids[b]} | b in t.live ensures Linked(m1, b, t.kids[b]) {
      assert Linked(m, b, s.kids[b]);
      assert forall k | k in s.kids[b] :: k in m && k != c;
      LinkedKept(m, m1, b, s.kids[b]);
    }
  }

  lemma SiblingsFresh(m: Memory, s: Forest, c: Ptr, q: Ptr, x: Chunk)
    requires WF(s) && c !in s.live && (q != NULL ==> q in s.live) && m.Keys == s.live && Siblings(m, s)
    requires x.child == NULL && Keyed(Fresh(s, c, q, x.size))
    ensures Siblings(m[c := x], Fresh(s, c, q, x.size))
  {
    var m1, t := m[c := x], Fresh(s, c, q, x.size);
    hide NoDup, RefsWF;
    assert forall i: nat :: !LinkAt(m1, c, [], i);
    assert Linked(m1, c, []);
    hide Linked;
    forall b {:trigger t.kids[b]} | b in t.live ensures Linked(m1, b, t.kids[b]) {
      if b != c {
        assert Linked(m, b, s.kids[b]);
        assert forall k | k in s.kids[b] :: k in m && k != c;
        LinkedKept(m, m1, b, s.kids[b]);
      }
    }
  }

  lemma TreeFresh(m: Memory, s: Forest, c: Ptr, q: Ptr, x: Chunk)
    requires WF(s) && c !in s.live && (q != NULL ==> q in s.live) && Tree(m, s) && Keyed(Fresh(s, c, q, x.size))
    requires x.child == NULL && x.prev == NULL && x.parent == q
    ensures Tree(m[c := x], Fresh(s, c, q, x.size))
  {
    hide NoDup, RefsWF, Siblings;
    SiblingsFresh(m, s, c, q, x);
  }

  // ----- reference lists

  /** The links of the i-th handle that refers to a. */
  ghost predicate RefLinkAt(m: Memory, hs: seq<Ptr>, i: nat) {
    i < |hs| && hs[i] in m && m[hs[i]].prevRef == Nth(hs, i - 1) && m[hs[i]].nextRef == Nth(hs, i + 1)
  }

  /** hs are the handles that refer to a, linked in this order. */
  ghost predicate RefLinked(m: Memory, a: Ptr, hs: seq<Ptr>) {
    && a in m && m[a].refs == Nth(hs, 0)
    && (forall h {:trigger h in hs} | h in hs :: h in m && m[h].ptr == a)
    && forall i: nat {:trigger RefLinkAt(m, hs, i)} | i < |hs| :: RefLinkAt(m, hs, i)
  }

  ghost predicate RefLists(m: Memory, s: Forest)
    requires Keyed(s)
  {
    forall a {:trigger s.refs[a]} | a in s.live :: RefLinked(m, a, s.refs[a])
  }

  ghost predicate SameRefs(a: Chunk, b: Chunk) {
    a.refs == b.refs && a.nextRef == b.nextRef && a.prevRef == b.prevRef && a.ptr == b.ptr
  }

  lemma RefLinkedKept(m0: Memory, m1: Memory, a: Ptr, hs: seq<Ptr>)
    requires RefLinked(m0, a, hs) && a in m1 && m1[a].refs == m0[a].refs
    requires forall h {:trigger h in hs} | h in hs :: h in m0 && h in m1 && SameRefs(m0[h], m1[h])
    ensures RefLinked(m1, a, hs)
  {
    forall i: nat | i < |hs| ensures RefLinkAt(m1, hs, i) {
      assert hs[i] in hs && RefLinkAt(m0, hs, i);
    }
  }

  /** Changes elsewhere leave the reference lists linked. */
  lemma RefListsKept(m0: Memory, m1: Memory, s: Forest, t: Forest)
    requires Keyed(s) && Keyed(t) && t.live <= s.live && m1.Keys >= t.live && m0.Keys >= s.live
    requires RefLists(m0, s)
    requires forall a {:trigger t.refs[a]} | a in t.live :: t.refs[a] == s.refs[a] && forall h | h in s.refs[a] :: h in t.live
    requires forall k {:trigger m1[k]} | k in t.live :: SameRefs(m0[k], m1[k])
    ensures RefLists(m1, t)
  {
    hide RefLinked;
    forall a {:trigger t.refs[a]} | a in t.live ensures RefLinked(m1, a, t.refs[a]) {
      assert RefLinked(m0, a, s.refs[a]);
      RefLinkedKept(m0, m1, a, s.refs[a]);
    }
  }

  /** m1 is m0 after handle hs[j] has left the list hs of references to a. */
  ghost predicate Unreferred(m0: Memory, m1: Memory, a: Ptr, hs: seq<Ptr>, j: nat)
    requires j < |hs| && a in m0
  {
    && m1.Keys == m0.Keys
    && m1[a] == m0[a].(refs := if j == 0 then Nth(hs, 1) else m0[a].refs)
    && hs[j] in m0 && m1[hs[j]] == m0[hs[j]].(nextRef := NULL, prevRef := NULL)
    && forall k {:trigger m1[k]} | k in m0 && k != a && k != hs[j] ::
         m1[k] == m0[k].(
           nextRef := if j > 0 && k == hs[j - 1] then Nth(hs, j + 1) else m0[k].nextRef,
           prevRef := if j + 1 < |hs| && k == hs[j + 1] then Nth(hs, j - 1) else m0[k].prevRef)
  }

  lemma RefGapLink(m0: Memory, m1: Memory, a: Ptr, hs: seq<Ptr>, j: nat, rest: seq<Ptr>, i: nat, o: nat)
    requires j < |hs| && rest == hs[..j] + hs[j + 1..] && i < |rest| && o == (if i < j then i else i + 1)
    requires a !in hs && NoDup(hs) && a in m0 && Unreferred(m0, m1, a, hs, j) && RefLinkAt(m0, hs, o)
    ensures RefLinkAt(m1, rest, i)
  {
    assert hs[o] in hs && hs[o] != hs[j];
  }

  lemma RefGapClosed(m0: Memory, m1: Memory, a: Ptr, hs: seq<Ptr>, j: nat)
    requires RefLinked(m0, a, hs) && a !in hs && NoDup(hs) && j < |hs|
    requires Unreferred(m0, m1, a, hs, j)
    ensures RefLinked(m1, a, Without(hs, hs[j]))
  {
    WithoutAt(hs, hs[j], j);
    var rest := hs[..j] + hs[j + 1..];
    hide Without, NoDup, RefLinkAt;
    forall h {:trigger h in rest} | h in rest ensures h in m1 && m1[h].ptr == a { assert h in hs; }
    forall i: nat | i < |rest| ensures RefLinkAt(m1, rest, i) {
      var o := if i < j then i else i + 1;
      assert RefLinkAt(m0, hs, o);
      RefGapLink(m0, m1, a, hs, j, rest, i, o);
    }
  }

  lemma RefListAt(m: Memory, s: Forest, a: Ptr)
    requires Keyed(s) && RefLists(m, s) && a in s.live
    ensures RefLinked(m, a, s.refs[a])
  {
  }

  /** The n-th handle of a and the link to the next. */
  lemma HandleAt(m: Memory, s: Forest, a: Ptr, n: nat)
    requires WF(s) && RefLists(m, s) && a in s.live && n < |s.refs[a]|
    ensures var h := s.refs[a][n]; h in m && h != NULL && h in s.target && h in s.live && m[h].nextRef == Nth(s.refs[a], n + 1)
  {
    assert s.refs[a][n] in s.refs[a] && RefLinked(m, a, s.refs[a]) && RefLinkAt(m, s.refs[a], n);
  }

  /** Each handle that refers to a is on a's list once. */
  lemma HandlesCounted(s: Forest, a: Ptr)
    requires WF(s) && a in s.live
    ensures |s.refs[a]| == |set h | h in s.target && s.target[h] == a|
  {
    var hs := s.refs[a];
    assert (set h | h in s.target && s.target[h] == a) == Members(hs);
    SeqSetSize(hs);
  }

  lemma {:induction false} SeqSetSize(xs: seq<Ptr>)
    requires NoDup(xs)
    ensures |Members(xs)| == |xs|
  {
    if xs == [] {
      assert Members(xs) == {};
    } else {
      SeqSetSize(xs[1..]);
      assert xs == [xs[0]] + xs[1..];
      assert Members(xs) == {xs[0]} + Members(xs[1..]);
      assert xs[0] !in xs[1..];
    }
  }

  lemma RefListsDropped(m0: Memory, m1: Memory, s: Forest, h: Ptr, j: nat)
    requires WF(s) && h in s.target && m0.Keys == s.live && RefLists(m0, s) && Keyed(DropRef(s, h))
    requires var hs := s.refs[s.target[h]]; j < |hs| && hs[j] == h && Unreferred(m0, m1, s.target[h], hs, j)
    ensures RefLists(m1, DropRef(s, h))
  {
    var a, t := s.target[h], DropRef(s, h);
    assert a !in s.refs[a];
    assert NoDup(s.refs[a]);
    RefGapClosed(m0, m1, a, s.refs[a], j);
    hide NoDup, TreeWF, RefLinked;
    forall b {:trigger t.refs[b]} | b in t.live ensures RefLinked(m1, b, t.refs[b]) {
      if b != a {
        assert forall k | k in s.refs[b] :: k in m0 && k !in s.refs[a] && k != h && k != a;
        assert RefLinked(m0, b, s.refs[b]);
        RefLinkedKept(m0, m1, b, s.refs[b]);
      }
    }
  }

  /** m1 is m0 after handle h has been put before the references hs to a. */
  ghost predicate Referred(m0: Memory, m1: Memory, a: Ptr, hs: seq<Ptr>, h: Ptr)
    requires a in m0 && h in m0
  {
    && m1.Keys == m0.Keys
    && m1[a] == m0[a].(refs := h)
    && m1[h] == m0[h].(nextRef := Nth(hs, 0), prevRef := NULL, ptr := a)
    && forall k {:trigger m1[k]} | k in m0 && k != a && k != h ::
         m1[k] == if k == Nth(hs, 0) then m0[k].(prevRef := h) else m0[k]
  }

  lemma FirstRefLinked(m0: Memory, m1: Memory, a: Ptr, hs: seq<Ptr>, h: Ptr)
    requires RefLinked(m0, a, hs) && a !in hs && h !in hs && h != a && NoDup(hs) && NULL !in hs && h in m0
    requires Referred(m0, m1, a, hs, h)
    ensures RefLinked(m1, a, [h] + hs)
  {
    var all := [h] + hs;
    forall k | k in all ensures k in m1 && m1[k].ptr == a { assert k == h || k in hs; }
    forall i: nat | i < |all| ensures RefLinkAt(m1, all, i) {
      if i > 0 {
        assert all[i] == hs[i - 1] && hs[i - 1] in hs && RefLinkAt(m0, hs, i - 1);
      }
    }
  }

  /** The list of b has nothing to do with the new handle h to a. */
  lemma RefListApart(m: Memory, s: Forest, b: Ptr, h: Ptr, a: Ptr)
    requires WF(s) && b in s.live && h !in s.target && a in s.live && a !in s.target
    requires m.Keys == s.live && RefLists(m, s)
    ensures RefLinked(m, b, s.refs[b]) && NoDup(s.refs[b]) && NULL !in s.refs[b]
    ensures forall k {:trigger k in s.refs[b]} | k in s.refs[b] :: k in m && k != h && k != a && (b != a ==> k !in s.refs[a])
    ensures h !in s.refs[b] && a !in s.refs[b]
  {
    hide TreeWF;
  }

  lemma RefListsAdded(m0: Memory, m1: Memory, s: Forest, h: Ptr, a: Ptr)
    requires WF(s) && h in s.live && h !in s.target && s.refs[h] == []
    requires a in s.live && a !in s.target && h != a
    requires m0.Keys == s.live && RefLists(m0, s) && Keyed(AddRef(s, h, a))
    requires Referred(m0, m1, a, s.refs[a], h)
    ensures RefLists(m1, AddRef(s, h, a))
  {
    hide NoDup, TreeWF, RefsWF, RefLinked;
    var t := AddRef(s, h, a);
    RefListApart(m0, s, a, h, a);
    FirstRefLinked(m0, m1, a, s.refs[a], h);
    forall b {:trigger t.refs[b]} | b in t.live ensures RefLinked(m1, b, t.refs[b]) {
      if b != a {
        RefListApart(m0, s, b, h, a);
        assert s.refs[a] != [] ==> s.refs[a][0] in s.refs[a];
        RefLinkedKept(m0, m1, b, s.refs[b]);
      }
    }
  }

  // ----- sizes, destructors and flags

  ghost predicate Marks(m: Memory, s: Forest)
    requires Keyed(s) && m.Keys == s.live
  {
    forall c {:trigger m[c]} | c in s.live ::
      && m[c].size == s.size[c]
      && (m[c].destructor == DropReference <==> c in s.target)
      && (m[c].destructor == Refuses <==> c in s.veto)
      && m[c].destructor != Running
  }

  ghost predicate Flags(m: Memory, loop: set<Ptr>) {
    forall c {:trigger m[c]} | c in m :: m[c].loop <==> c in loop
  }

  /** Memory m stands for forest s. */
  ghost predicate Represents(m: Memory, s: Forest) {
    WF(s) && Tree(m, s) && RefLists(m, s) && Marks(m, s)
  }

  /** m1 differs from m0 in links between siblings, parents and children only. */
  ghost predicate OnlyLinks(m0: Memory, m1: Memory) {
    m1.Keys == m0.Keys && forall k {:trigger m1[k]} | k in m0 ::
      m1[k] == m0[k].(next := m1[k].next, prev := m1[k].prev, parent := m1[k].parent, child := m1[k].child)
  }

  lemma RefsLive(s: Forest)
    requires WF(s)
    ensures Keyed(s) && forall a {:trigger s.refs[a]} | a in s.live :: forall h | h in s.refs[a] :: h in s.live && h in s.target
  {
  }

  lemma LinksChanged(m0: Memory, m1: Memory, s: Forest, t: Forest)
    requires Represents(m0, s) && OnlyLinks(m0, m1) && WF(t) && Tree(m1, t)
    requires t.live == s.live && t.refs == s.refs && t.target == s.target && t.veto == s.veto && t.size == s.size
    ensures Represents(m1, t)
  {
    hide NoDup, TreeWF, RefsWF, Siblings, Tops, Stales, RefLists;
    RefsLive(s);
    RefListsKept(m0, m1, s, t);
  }

  /** Where handle h is listed. */
  lemma RefPlace(m: Memory, s: Forest, h: Ptr) returns (j: nat)
    requires WF(s) && h in s.target && m.Keys == s.live && RefLists(m, s)
    ensures var a, hs := s.target[h], s.refs[s.target[h]];
            j < |hs| && hs[j] == h && RefLinked(m, a, hs) && a !in hs && NoDup(hs) && NULL !in m && m[h].ptr == a
  {
    var a, hs := s.target[h], s.refs[s.target[h]];
    j :| 0 <= j < |hs| && hs[j] == h;
    assert RefLinked(m, a, hs);
  }

  /** m1 differs from m0 in destructor slots and reference links only. */
  ghost predicate OnlyOwners(m0: Memory, m1: Memory) {
    m1.Keys == m0.Keys && forall k {:trigger m1[k]} | k in m0 ::
      SameLinks(m0[k], m1[k]) && m1[k].child == m0[k].child && m1[k].size == m0[k].size && m1[k].loop == m0[k].loop
  }

  /** Reference lists do not depend on destructor slots. */
  lemma SlotRefLists(m: Memory, s: Forest, c: Ptr, d: Destructor)
    requires WF(s) && m.Keys == s.live && c in m && RefLists(m, s)
    ensures RefLists(m[c := m[c].(destructor := d)], s)
  {
    hide TreeWF, RefsWF, RefLists;
    RefsLive(s);
    RefListsKept(m, m[c := m[c].(destructor := d)], s, s);
  }

  lemma TreeLeft(m0: Memory, m1: Memory, s: Forest, t: Forest)
    requires Keyed(s) && Keyed(t) && Tree(m0, s) && RefsWF(s) && TreeWF(s) && OnlyOwners(m0, m1)
    requires t.live == s.live && t.up == s.up && t.kids == s.kids && t.loose == s.loose
    ensures Tree(m1, t)
  {
    hide NoDup, TreeWF, RefsWF, Siblings, Tops, Stales;
    TreeKept(m0, m1, s, t);
  }

  /** Taking a handle off a list changes reference links only. */
  lemma UnreferredOwners(m0: Memory, m1: Memory, a: Ptr, hs: seq<Ptr>, j: nat)
    requires a in m0 && j < |hs| && Unreferred(m0, m1, a, hs, j)
    ensures OnlyOwners(m0, m1) && forall k {:trigger m1[k]} | k in m1 :: m1[k].destructor == m0[k].destructor
  {
  }

  /** So does running its destructor, which writes its slot before and after. */
  lemma SlotOwners(m0: Memory, m1: Memory, m2: Memory, m3: Memory, h: Ptr)
    requires h in m0 && m1 == m0[h := m0[h].(destructor := Running)]
    requires OnlyOwners(m1, m2) && forall k {:trigger m2[k]} | k in m2 :: m2[k].destructor == m1[k].destructor
    requires h in m2 && m3 == m2[h := m2[h].(destructor := NoDestructor)]
    ensures OnlyOwners(m0, m3) && h in m3 && m3[h].destructor == NoDestructor
    ensures forall k {:trigger m3[k]} | k in m3 && k != h :: m3[k].destructor == m0[k].destructor
  {
    forall k {:trigger m3[k]} | k in m3 ensures k != h ==> m3[k] == m2[k] {}
  }

  lemma MarksDropped(m0: Memory, m3: Memory, s: Forest, h: Ptr)
    requires Keyed(s) && m0.Keys == s.live && Marks(m0, s) && h in s.target && s.target[h] in s.refs && Keyed(DropRef(s, h))
    requires OnlyOwners(m0, m3) && h in m3 && m3[h].destructor == NoDestructor
    requires forall k {:trigger m3[k]} | k in m3 && k != h :: m3[k].destructor == m0[k].destructor
    ensures m3.Keys == s.live && Marks(m3, DropRef(s, h))
  {
    hide Without;
  }

  /** The destructor of a handle has run: m1 while it was running, m2 after. */
  lemma HandleDropped(m0: Memory, m1: Memory, m2: Memory, m3: Memory, s: Forest, h: Ptr, j: nat)
    requires Represents(m0, s) && h in s.target && h in m0
    requires m1 == m0[h := m0[h].(destructor := Running)]
    requires s.target[h] in m1 && s.target[h] in s.refs
    requires var hs := s.refs[s.target[h]]; j < |hs| && hs[j] == h && Unreferred(m1, m2, s.target[h], hs, j)
    requires h in m2 && m3 == m2[h := m2[h].(destructor := NoDestructor)]
    ensures Represents(m3, DropRef(s, h)) && OnlyOwners(m0, m3)
  {
    hide NoDup, TreeWF, RefsWF, RefLists, Siblings, Tops, Stales, Without, Unreferred, Marks;
    var t := DropRef(s, h);
    DropRefWF(s, h);
    SlotRefLists(m0, s, h, Running);
    RefListsDropped(m1, m2, s, h, j);
    UnreferredOwners(m1, m2, s.target[h], s.refs[s.target[h]], j);
    SlotRefLists(m2, t, h, NoDestructor);
    SlotOwners(m0, m1, m2, m3, h);
    MarksDropped(m0, m3, s, h);
    TreeLeft(m0, m3, s, t);
  }

  /** Writing a destructor slot with what it means. */
  lemma SlotChanged(m0: Memory, s: Forest, c: Ptr, d: Destructor, t: Forest)
    requires Represents(m0, s) && c in s.live && c !in s.target && d != DropReference && d != Running
    requires t == s.(veto := if d == Refuses then s.veto + {c} else s.veto - {c})
    ensures Represents(m0[c := m0[c].(destructor := d)], t)
  {
    hide NoDup, RefLists, Siblings, Tops, Stales;
    VetoWF(s, t);
    hide TreeWF, RefsWF;
    var m1 := m0[c := m0[c].(destructor := d)];
    SlotRefLists(m0, s, c, d);
    RefListsVeto(m1, s, t);
    TreeKept(m0, m1, s, t);
  }

  lemma VetoWF(s: Forest, t: Forest)
    requires WF(s) && t == s.(veto := t.veto)
    ensures WF(t)
  {
    hide NoDup;
  }

  lemma RefListsVeto(m: Memory, s: Forest, t: Forest)
    requires Keyed(s) && t == s.(veto := t.veto) && RefLists(m, s) && Keyed(t)
    ensures RefLists(m, t)
  {
    hide RefLinked;
  }

  // ----- a new chunk

  lemma RefListsFresh(m: Memory, s: Forest, c: Ptr, q: Ptr, x: Chunk)
    requires WF(s) && c !in s.live && (q != NULL ==> q in s.live) && m.Keys == s.live && RefLists(m, s)
    requires x.refs == NULL && Keyed(Fresh(s, c, q, x.size))
    ensures RefLists(m[c := x], Fresh(s, c, q, x.size))
  {
    var m1, t := m[c := x], Fresh(s, c, q, x.size);
    hide NoDup, TreeWF, RefsWF;
    RefsLive(s);
    assert forall i: nat :: !RefLinkAt(m1, [], i);
    assert RefLinked(m1, c, []);
    hide RefLinked;
    forall a {:trigger t.refs[a]} | a in t.live ensures RefLinked(m1, a, t.refs[a]) {
      if a != c {
        assert RefLinked(m, a, s.refs[a]);
        RefLinkedKept(m, m1, a, s.refs[a]);
      }
    }
  }

  lemma FreshRepresents(m: Memory, s: Forest, c: Ptr, q: Ptr, x: Chunk)
    requires Represents(m, s) && c !in s.live && c != NULL && (q != NULL ==> q in s.live && q !in s.target)
    requires x.child == NULL && x.prev == NULL && x.parent == q && x.refs == NULL && x.destructor == NoDestructor
    ensures Represents(m[c := x], Fresh(s, c, q, x.size))
  {
    hide NoDup, TreeWF, RefsWF, Siblings, Tops, Stales, RefLists;
    FreshWF(s, c, q, x.size);
    TreeFresh(m, s, c, q, x);
    RefListsFresh(m, s, c, q, x);
  }

  /** Ranks are not stored. */
  lemma RankRepresents(m: Memory, s: Forest, t: Forest)
    requires Represents(m, s) && WF(t) && t == s.(rank := t.rank)
    ensures Represents(m, t)
  {
    hide NoDup, TreeWF, RefsWF, Linked, RefLinked;
  }

  /** A chunk that has just been created can become a handle. */
  lemma NewHandle(m: Memory, s: Forest, h: Ptr, a: Ptr)
    requires Represents(m, s) && s.loose == {} && h in s.live && h !in s.target && s.refs[h] == [] && s.kids[h] == []
    requires a in s.live && a !in s.target && a != h
    ensures NULL !in m && h in m && a in m && h !in s.refs[a] && a !in s.refs[a] && NULL !in s.refs[a]
    ensures WF(AddRef(s, h, a)) && RefLinked(m, a, s.refs[a])
  {
    AddRefWF(s, h, a);
  }

  /** m2 is m0 after h has become a handle that refers to a. */
  lemma HandleAdded(m0: Memory, m2: Memory, s: Forest, h: Ptr, a: Ptr)
    requires Represents(m0, s) && s.loose == {} && h in s.live && h !in s.target && h !in s.veto && s.refs[h] == []
    requires a in s.live && a !in s.target && a != h && h in m0 && WF(AddRef(s, h, a))
    requires var m1 := m0[h := m0[h].(destructor := DropReference)]; RefLists(m1, s) && Referred(m1, m2, a, s.refs[a], h)
    ensures Represents(m2, AddRef(s, h, a)) && OnlyOwners(m0, m2)
  {
    hide NoDup, TreeWF, RefsWF, Siblings, Tops, Stales, RefLists, Marks, OnlyOwners, Referred;
    var m1 := m0[h := m0[h].(destructor := DropReference)];
    RefListsAdded(m1, m2, s, h, a);
    MarksAdded(m0, m2, s, h, a);
    TreeLeft(m0, m2, s, AddRef(s, h, a));
  }

  /** Putting a handle on a list changes reference links only. */
  lemma ReferredOwners(m0: Memory, m1: Memory, a: Ptr, hs: seq<Ptr>, h: Ptr)
    requires a in m0 && h in m0 && Referred(m0, m1, a, hs, h)
    ensures OnlyOwners(m0, m1) && forall k {:trigger m1[k]} | k in m1 :: m1[k].destructor == m0[k].destructor
  {
  }

  lemma MarksAdded(m0: Memory, m2: Memory, s: Forest, h: Ptr, a: Ptr)
    requires Keyed(s) && m0.Keys == s.live && Marks(m0, s) && h in s.live && h !in s.target && h !in s.veto
    requires a in s.live && a != h && Keyed(AddRef(s, h, a))
    requires var m1 := m0[h := m0[h].(destructor := DropReference)]; Referred(m1, m2, a, s.refs[a], h)
    ensures m2.Keys == s.live && Marks(m2, AddRef(s, h, a)) && OnlyOwners(m0, m2)
  {
    hide Referred;
    ReferredOwners(m0[h := m0[h].(destructor := DropReference)], m2, a, s.refs[a], h);
  }

  // ----- what the links say

  /** The i-th child of c: it alone stores the parent if it is the first, and it is linked
      to its neighbours and nothing else. */
  lemma LinksOfKid(m: Memory, s: Forest, c: Ptr, i: nat)
    requires Represents(m, s) && c in s.live && i < |s.kids[c]|
    ensures var ks := s.kids[c];
      && c in m && ks[i] in m && m[c].child == ks[0]
      && m[ks[i]].parent == (if i == 0 then c else NULL)
      && m[ks[i]].prev == (if i == 0 then NULL else ks[i - 1])
      && m[ks[i]].next == (if i == |ks| - 1 then NULL else ks[i + 1])
  {
    hide NoDup, TreeWF, RefsWF, Tops, Stales, RefLists;
    assert Linked(m, c, s.kids[c]) && LinkAt(m, c, s.kids[c], i);
  }

  /** A chunk without children, and one at top level. */
  lemma LinksOfNone(m: Memory, s: Forest, c: Ptr)
    requires Represents(m, s) && c in s.live
    ensures c in m && (s.kids[c] == [] ==> m[c].child == NULL) && (s.refs[c] == [] ==> m[c].refs == NULL)
    ensures c !in s.loose && s.up[c] == NULL ==> m[c].next == NULL && m[c].prev == NULL && m[c].parent == NULL
  {
    hide NoDup, TreeWF, RefsWF, Stales;
    assert Linked(m, c, s.kids[c]) && RefLinked(m, c, s.refs[c]);
  }

  /** The i-th handle that refers to a. */
  lemma LinksOfHandle(m: Memory, s: Forest, a: Ptr, i: nat)
    requires Represents(m, s) && a in s.live && i < |s.refs[a]|
    ensures var hs := s.refs[a];
      && a in m && hs[i] in m && m[a].refs == hs[0] && m[hs[i]].ptr == a && m[hs[i]].destructor == DropReference
      && m[hs[i]].prevRef == (if i == 0 then NULL else hs[i - 1])
      && m[hs[i]].nextRef == (if i == |hs| - 1 then NULL else hs[i + 1])
  {
    hide NoDup, TreeWF, Siblings, Tops, Stales;
    assert s.refs[a][i] in s.refs[a] && RefLinked(m, a, s.refs[a]) && RefLinkAt(m, s.refs[a], i);
  }

  // ----- walking over children

  lemma KidAt(m: Memory, s: Forest, c: Ptr, n: nat)
    requires WF(s) && Tree(m, s) && c in s.live && n < |s.kids[c]|
    ensures var k := s.kids[c][n]; k in m && m[k].next == Nth(s.kids[c], n + 1)
  {
    assert s.kids[c][n] in s.kids[c] && Linked(m, c, s.kids[c]) && LinkAt(m, c, s.kids[c], n);
  }

  /** Flags say nothing about the forest. */
  lemma LoopRepresents(m: Memory, s: Forest, c: Ptr, b: bool)
    requires Represents(m, s) && c in s.live && c in m
    ensures Represents(m[c := m[c].(loop := b)], s)
  {
    hide NoDup, TreeWF, RefsWF, Siblings, Tops, Stales, RefLists;
    var m1 := m[c := m[c].(loop := b)];
    TreeKept(m, m1, s, s);
    RefsLive(s);
    RefListsKept(m, m1, s, s);
  }
}
