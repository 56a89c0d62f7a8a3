/** The forest of chunks that the allocator's raw links stand for, and the
    elementary changes the allocator makes to it. */
module Forests {
  /** The address of a chunk. */
  type Ptr = nat
  const NULL: Ptr := 0

  /** `up` is the parent (NULL at top level), `kids` the children in list order,
      `refs` the handles that refer to a chunk, most recent first, `target` what
      each live handle refers to, `veto` the chunks whose destructor refuses.
      `loose` holds the chunks that are out of every sibling list while an
      operation is under way. `rank` grows from parent to child. */
  datatype Forest = Forest(
    live: set<Ptr>,
    up: map<Ptr, Ptr>,
    kids: map<Ptr, seq<Ptr>>,
    refs: map<Ptr, seq<Ptr>>,
    target: map<Ptr, Ptr>,
    veto: set<Ptr>,
    size: map<Ptr, nat>,
    loose: set<Ptr>,
    rank: map<Ptr, nat>)

  ghost const NOTHING: Forest := Forest({}, map[], map[], map[], map[], {}, map[], {}, map[])

  ghost predicate NoDup<T>(xs: seq<T>) {
    forall i, j :: 0 <= i < j < |xs| ==> xs[i] != xs[j]
  }

  /** The sequence without its first x. */
  ghost function Without<T>(xs: seq<T>, x: T): seq<T> {
    if xs == [] then []
    else if xs[0] == x then xs[1..]
    else [xs[0]] + Without(xs[1..], x)
  }

  ghost function Members(xs: seq<Ptr>): set<Ptr> {
    set x | x in xs
  }

  lemma {:induction false} WithoutAt<T>(xs: seq<T>, x: T, j: nat)
    requires j < |xs| && xs[j] == x && NoDup(xs)
    ensures Without(xs, x) == xs[..j] + xs[j + 1..]
  {
    if j > 0 {
      assert xs[0] != x;
      WithoutAt(xs[1..], x, j - 1);
      assert xs[1..][..j - 1] == xs[1..j] && xs[1..][j..] == xs[j + 1..];
    }
  }

  lemma {:induction false} WithoutMembers<T>(xs: seq<T>, x: T, y: T)
    requires NoDup(xs)
    ensures y in Without(xs, x) <==> y in xs && y != x
  {
    if xs != [] {
      assert forall i :: 0 < i < |xs| ==> xs[i] == xs[1..][i - 1];
      if xs[0] == x {
        assert y in xs[1..] <==> y in xs && y != x;
      } else {
        WithoutMembers(xs[1..], x, y);
      }
    }
  }

  lemma WithoutFacts<T>(xs: seq<T>, x: T)
    requires NoDup(xs)
    ensures NoDup(Without(xs, x))
    ensures x in xs ==> |Without(xs, x)| == |xs| - 1
    ensures x !in xs ==> Without(xs, x) == xs
  {
    if x in xs {
      var j :| 0 <= j < |xs| && xs[j] == x;
      WithoutAt(xs, x, j);
    } else {
      WithoutAbsent(xs, x);
    }
  }

  /** Neighbours in what is left were neighbours, or x stood between them. */
  lemma {:induction false} WithoutNeighbours<T>(xs: seq<T>, x: T, i: nat) returns (o: nat)
    requires 0 < i < |Without(xs, x)|
    ensures 0 < o < |xs| && xs[o] == Without(xs, x)[i] && (xs[o - 1] == Without(xs, x)[i - 1] || xs[o - 1] == x)
  {
    if xs[0] == x {
      o := i + 1;
    } else if i == 1 {
      if xs[1] == x { o := 2; } else { o := 1; }
    } else {
      o := WithoutNeighbours(xs[1..], x, i - 1);
      o := o + 1;
    }
  }

  lemma {:induction false} WithoutAbsent<T>(xs: seq<T>, x: T)
    requires x !in xs
    ensures Without(xs, x) == xs
  {
    if xs != [] { WithoutAbsent(xs[1..], x); }
  }

  lemma NoDupCons<T>(x: T, xs: seq<T>)
    requires NoDup(xs) && x !in xs
    ensures NoDup<T>([]) && NoDup([x] + xs)
  {
  }

  // ----- well-formedness

  ghost predicate Keyed(s: Forest) {
    && s.live <= s.up.Keys && s.live <= s.kids.Keys && s.live <= s.refs.Keys
    && s.live <= s.rank.Keys && s.live <= s.size.Keys
    && s.target.Keys <= s.live && s.loose <= s.live && NULL !in s.live
  }

  /** Children and parents agree, no chunk is listed twice, parents rank below. */
  ghost predicate TreeWF(s: Forest)
    requires Keyed(s)
  {
    && (forall c, k {:trigger k in s.kids[c]} | c in s.live && k in s.kids[c] ::
          k in s.live && k !in s.loose && s.up[k] == c)
    && (forall c {:trigger s.up[c]} | c in s.live && s.up[c] != NULL ::
          && s.up[c] in s.live
          && s.rank[s.up[c]] < s.rank[c]
          && (c in s.loose || c in s.kids[s.up[c]]))
    && (forall c {:trigger s.kids[c]} | c in s.live :: NoDup(s.kids[c]))
  }

  /** Handles and the lists they are on agree, and handles are leaves. */
  ghost predicate RefsWF(s: Forest)
    requires Keyed(s)
  {
    && (forall c, h {:trigger h in s.refs[c]} | c in s.live && h in s.refs[c] :: h in s.target && s.target[h] == c)
    && (forall h {:trigger h in s.target} | h in s.target ::
          && s.target[h] in s.live
          && h in s.refs[s.target[h]]
          && s.kids[h] == [] && s.refs[h] == [] && h !in s.loose)
    && (forall c {:trigger s.refs[c]} | c in s.live :: NoDup(s.refs[c]))
    && (forall c {:trigger c in s.loose} | c in s.loose :: s.up[c] !in s.target)
  }

  ghost predicate WF(s: Forest) {
    Keyed(s) && TreeWF(s) && RefsWF(s)
  }

  // ----- the elementary changes

  /** c leaves the sibling list it is on. */
  ghost function Unlink(s: Forest, c: Ptr): Forest
    requires c in s.up && (s.up[c] != NULL ==> s.up[c] in s.kids)
  {
    var q := s.up[c];
    s.(kids := if q == NULL then s.kids else s.kids[q := Without(s.kids[q], c)], loose := s.loose + {c})
  }

  /** A loose chunk becomes the first child of q, or a top-level chunk. */
  ghost function Attach(s: Forest, c: Ptr, q: Ptr): Forest
    requires q != NULL ==> q in s.kids
  {
    s.(up := s.up[c := q],
       kids := if q == NULL then s.kids else s.kids[q := [c] + s.kids[q]],
       loose := s.loose - {c})
  }

  /** Handle h leaves the reference list of its target. */
  ghost function DropRef(s: Forest, h: Ptr): Forest
    requires h in s.target && s.target[h] in s.refs
  {
    var t := s.target[h];
    s.(refs := s.refs[t := Without(s.refs[t], h)], target := s.target - {h})
  }

  /** Handle h heads the reference list of t. */
  ghost function AddRef(s: Forest, h: Ptr, t: Ptr): Forest
    requires t in s.refs
  {
    s.(refs := s.refs[t := [h] + s.refs[t]], target := s.target[h := t])
  }

  /** The memory of c is given back. */
  ghost function Remove(s: Forest, c: Ptr): Forest {
    s.(live := s.live - {c}, loose := s.loose - {c})
  }

  /** A new chunk c that is about to be put below q. */
  ghost function Fresh(s: Forest, c: Ptr, q: Ptr, size: nat): Forest
    requires q != NULL ==> q in s.rank
  {
    s.(live := s.live + {c},
       up := s.up[c := q],
       kids := s.kids[c := []],
       refs := s.refs[c := []],
       size := s.size[c := size],
       veto := s.veto - {c},
       loose := s.loose + {c},
       rank := s.rank[c := if q == NULL then 0 else s.rank[q] + 1])
  }

  /** A new chunk c, first child of q or at top level. */
  ghost function Create(s: Forest, c: Ptr, q: Ptr, size: nat): Forest
    requires WF(s) && (q != NULL ==> q in s.live)
  {
    Attach(Fresh(s, c, q, size), c, q)
  }

  /** A handle is dropped, unlinked and given back. */
  ghost function FreeHandle(s: Forest, h: Ptr): Forest
    requires h in s.target && s.target[h] in s.refs && h in s.up && (s.up[h] != NULL ==> s.up[h] in s.kids)
  {
    Remove(Unlink(DropRef(s, h), h), h)
  }

  /** c moves to the front of q's children, or to top level. */
  ghost function Move(s: Forest, c: Ptr, q: Ptr): Forest
    requires c in s.up && (s.up[c] != NULL ==> s.up[c] in s.kids) && (q != NULL ==> q in s.kids)
  {
    Attach(Unlink(s, c), c, q)
  }

  /** A new chunk has no children and no references, and comes first below q. */
  lemma CreateFields(s: Forest, c: Ptr, q: Ptr, size: nat)
    requires WF(s) && c !in s.live && c != NULL && (q != NULL ==> q in s.live)
    ensures var t := Create(s, c, q, size);
      && t.live == s.live + {c} && t.up == s.up[c := q] && t.size == s.size[c := size]
      && t.kids == (if q == NULL then s.kids[c := []] else s.kids[c := []][q := [c] + s.kids[q]])
      && t.refs == s.refs[c := []] && t.target == s.target && t.veto == s.veto - {c}
  {
    hide NoDup, TreeWF, RefsWF;
    assert c !in s.loose;
  }

  /** A chunk that moves leaves its parent's children and comes first below q. */
  lemma MoveFields(s: Forest, c: Ptr, q: Ptr)
    requires WF(s) && c in s.live && c !in s.loose && (q != NULL ==> q in s.live) && s.up[c] in s.live + {NULL}
    ensures var t, p := Move(s, c, q), s.up[c];
      && t.up == s.up[c := q]
      && (forall b | b in s.live && b != p && b != q :: t.kids[b] == s.kids[b])
      && (p != NULL && p != q ==> t.kids[p] == Without(s.kids[p], c))
      && (q != NULL && p != q ==> t.kids[q] == [c] + s.kids[q])
      && (q != NULL && p == q ==> t.kids[q] == [c] + Without(s.kids[q], c))
      && t.live == s.live && t.refs == s.refs && t.target == s.target && t.size == s.size && t.veto == s.veto
  {
    hide NoDup, Without;
  }

  /** A new reference is the latest. */
  lemma AddRefFields(s: Forest, h: Ptr, a: Ptr)
    requires a in s.refs
    ensures var t := AddRef(s, h, a);
      && t.refs == s.refs[a := [h] + s.refs[a]] && t.target == s.target[h := a]
      && t.live == s.live && t.up == s.up && t.kids == s.kids && t.size == s.size && t.veto == s.veto
  {
  }

  lemma UnlinkTree(s: Forest, c: Ptr)
    requires WF(s) && c in s.live && c !in s.loose && c !in s.target
    ensures TreeWF(Unlink(s, c))
  {
    hide NoDup, RefsWF;
    var q, t := s.up[c], Unlink(s, c);
    if q != NULL { WithoutFacts(s.kids[q], c); }
    forall b, k {:trigger k in t.kids[b]} | b in t.live && k in t.kids[b]
      ensures k in t.live && k !in t.loose && t.up[k] == b
    {
      if b == q { WithoutMembers(s.kids[q], c, k); }
      assert k in s.kids[b];
    }
    forall k {:trigger t.up[k]} | k in t.live && k !in t.loose && t.up[k] != NULL ensures k in t.kids[t.up[k]] {
      assert k in s.kids[s.up[k]];
      if s.up[k] == q { WithoutMembers(s.kids[q], c, k); }
    }
  }

  lemma UnlinkWF(s: Forest, c: Ptr)
    requires WF(s) && c in s.live && c !in s.loose && c !in s.target
    requires s.up[c] !in s.target
    ensures WF(Unlink(s, c))
  {
    hide NoDup, TreeWF;
    UnlinkTree(s, c);
  }

  lemma AttachTree(s: Forest, c: Ptr, q: Ptr)
    requires WF(s) && c in s.loose && (q != NULL ==> q in s.live && s.rank[q] < s.rank[c])
    ensures TreeWF(Attach(s, c, q))
  {
    hide NoDup, RefsWF;
    var t := Attach(s, c, q);
    forall b, k {:trigger k in t.kids[b]} | b in t.live && k in t.kids[b]
      ensures k in t.live && k !in t.loose && t.up[k] == b
    {
      assert k in s.kids[b] || (b == q && k == c);
    }
    forall k {:trigger t.up[k]} | k in t.live && k !in t.loose && t.up[k] != NULL ensures k in t.kids[t.up[k]] {
      if k != c { assert k in s.kids[s.up[k]]; }
    }
    if q != NULL {
      assert c !in s.kids[q];
      NoDupCons(c, s.kids[q]);
    }
  }

  lemma AttachWF(s: Forest, c: Ptr, q: Ptr)
    requires WF(s) && c in s.loose && (q != NULL ==> q in s.live && s.rank[q] < s.rank[c] && q !in s.target)
    ensures WF(Attach(s, c, q))
  {
    hide NoDup, TreeWF;
    AttachTree(s, c, q);
  }

  lemma DropRefWF(s: Forest, h: Ptr)
    requires WF(s) && h in s.target
    ensures WF(DropRef(s, h))
  {
    hide NoDup;
    var a, t := s.target[h], DropRef(s, h);
    WithoutFacts(s.refs[a], h);
    forall b, k {:trigger k in t.refs[b]} | b in t.live && k in t.refs[b] ensures k in t.target && t.target[k] == b {
      if b == a { WithoutMembers(s.refs[a], h, k); }
      assert k in s.refs[b];
    }
    forall k {:trigger k in t.target} | k in t.target ensures k in t.refs[t.target[k]] {
      assert k in s.target;
      if s.target[k] == a { WithoutMembers(s.refs[a], h, k); }
    }
  }

  lemma RemoveWF(s: Forest, c: Ptr)
    requires WF(s) && c in s.live && c !in s.target && s.kids[c] == [] && s.refs[c] == [] && c in s.loose
    requires forall d | d in s.live :: s.up[d] != c
    ensures WF(Remove(s, c))
  {
    hide NoDup;
  }

  lemma FreshTree(s: Forest, c: Ptr, q: Ptr, size: nat)
    requires WF(s) && c !in s.live && c != NULL && (q != NULL ==> q in s.live)
    ensures Keyed(Fresh(s, c, q, size)) && TreeWF(Fresh(s, c, q, size))
  {
    hide NoDup, RefsWF;
    NoDupCons<Ptr>(c, []);
    var t := Fresh(s, c, q, size);
    forall b, k {:trigger k in t.kids[b]} | b in t.live && k in t.kids[b]
      ensures k in t.live && k !in t.loose && t.up[k] == b
    {
      assert b != c && k in s.kids[b];
    }
    forall b {:trigger t.up[b]} | b in t.live && t.up[b] != NULL
      ensures t.up[b] in t.live && t.rank[t.up[b]] < t.rank[b] && (b in t.loose || b in t.kids[t.up[b]])
    {
      assert b != c ==> t.up[b] == s.up[b] && s.up[b] != c;
    }
  }

  lemma FreshWF(s: Forest, c: Ptr, q: Ptr, size: nat)
    requires WF(s) && c !in s.live && c != NULL && (q != NULL ==> q in s.live && q !in s.target)
    ensures WF(Fresh(s, c, q, size))
  {
    hide NoDup, TreeWF;
    NoDupCons<Ptr>(c, []);
    FreshTree(s, c, q, size);
  }

  lemma AddRefWF(s: Forest, h: Ptr, a: Ptr)
    requires WF(s) && h in s.live && h !in s.target && h !in s.loose
    requires a in s.live && a !in s.target && a !in s.loose && h != a
    requires s.kids[h] == [] && s.refs[h] == [] && forall c | c in s.loose :: s.up[c] != h
    ensures WF(AddRef(s, h, a))
  {
    hide NoDup;
    var t := AddRef(s, h, a);
    forall b, k {:trigger k in t.refs[b]} | b in t.live && k in t.refs[b] ensures k in t.target && t.target[k] == b {
      assert k in s.refs[b] || (b == a && k == h);
    }
    assert h !in s.refs[a];
    NoDupCons(h, s.refs[a]);
  }

  lemma FreeHandleWF(s: Forest, h: Ptr)
    requires WF(s) && h in s.target
    ensures WF(FreeHandle(s, h))
  {
    assert forall d | d in s.live && d !in s.loose && s.up[d] != NULL :: d in s.kids[s.up[d]];
    assert s.up[h] !in s.target;
    assert forall d | d in s.live :: s.up[d] != h;
    DropRefWF(s, h);
    var t := DropRef(s, h);
    assert forall d | d in t.live :: t.up[d] != h;
    UnlinkWF(t, h);
    var u := Unlink(t, h);
    hide NoDup;
    assert u.kids[h] == [] && u.refs[h] == [];
    RemoveWF(u, h);
  }

  lemma MoveWF(s: Forest, c: Ptr, q: Ptr)
    requires WF(s) && c in s.live && c !in s.loose && c !in s.target
    requires s.up[c] !in s.target && (q != NULL ==> q in s.live && q !in s.target && s.rank[q] < s.rank[c])
    ensures WF(Move(s, c, q))
  {
    UnlinkWF(s, c);
    AttachWF(Unlink(s, c), c, q);
  }

  /** A first child that moves to its own parent stays where it is. */
  lemma MoveInPlace(s: Forest, c: Ptr, q: Ptr)
    requires WF(s) && c in s.live && c !in s.loose && q in s.live
    requires s.up[c] == q && s.kids[q] != [] && s.kids[q][0] == c
    ensures Move(s, c, q) == s
  {
    var t := Move(s, c, q);
    assert q != NULL;
    assert t.kids[q] == s.kids[q];
    assert t.kids == s.kids && t.up == s.up && t.loose == s.loose;
  }
}
