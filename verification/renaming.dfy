/** A chunk that realloc moves: the forest under another name for one chunk. */
module Renaming {
  import opened Forests
  import opened Ownership
  import opened Freeing
  import opened Memories
  import opened Sizes

  /** The new name of x when a has become b, and the old name. */
  ghost function To(a: Ptr, b: Ptr, x: Ptr): Ptr { if x == a then b else x }

  ghost function ToAll(a: Ptr, b: Ptr, ks: seq<Ptr>): (r: seq<Ptr>)
    ensures |r| == |ks| && forall i {:trigger r[i]} {:trigger ks[i]} :: 0 <= i < |ks| ==> r[i] == To(a, b, ks[i])
  {
    seq(|ks|, i requires 0 <= i < |ks| => To(a, b, ks[i]))
  }

  /** s with b for a, and the new size of that chunk. */
  ghost function Renamed(s: Forest, a: Ptr, b: Ptr, size: nat): Forest
    requires Keyed(s) && a in s.live && b !in s.live
  {
    var live := s.live - {a} + {b};
    Forest(
      live,
      map x | x in live :: To(a, b, s.up[To(b, a, x)]),
      map x | x in live :: ToAll(a, b, s.kids[To(b, a, x)]),
      map x | x in live :: s.refs[To(b, a, x)],
      s.target,
      if a in s.veto then s.veto - {a} + {b} else s.veto - {b},
      map x | x in live :: if x == b then size else s.size[x],
      s.loose,
      map x | x in live :: s.rank[To(b, a, x)])
  }

  /** realloc only moves chunks that are in use, unreferenced and no handles. */
  ghost predicate Renamable(s: Forest, a: Ptr, b: Ptr) {
    WF(s) && s.loose == {} && Plain(s, a) && s.refs[a] == [] && b !in s.live && b != NULL
  }

  lemma RenamedKeyed(s: Forest, a: Ptr, b: Ptr, size: nat)
    requires Renamable(s, a, b)
    ensures Keyed(Renamed(s, a, b, size))
  {
    hide TreeWF, RefsWF;
  }

  lemma RenamedMember(a: Ptr, b: Ptr, ks: seq<Ptr>, x: Ptr)
    requires x in ToAll(a, b, ks) && b !in ks
    ensures To(b, a, x) in ks && To(a, b, To(b, a, x)) == x
  {
    var i :| 0 <= i < |ks| && ToAll(a, b, ks)[i] == x;
    assert ks[i] in ks;
  }

  lemma RenamedNoDup(a: Ptr, b: Ptr, ks: seq<Ptr>)
    requires NoDup(ks) && b !in ks
    ensures NoDup(ToAll(a, b, ks))
  {
    forall i, j | 0 <= i < j < |ks| ensures To(a, b, ks[i]) != To(a, b, ks[j]) {
      assert ks[i] in ks && ks[j] in ks;
    }
  }

  lemma RenamedKid(s: Forest, a: Ptr, b: Ptr, size: nat, c: Ptr, k: Ptr)
    requires Renamable(s, a, b) && Keyed(Renamed(s, a, b, size))
    requires c in Renamed(s, a, b, size).live && k in Renamed(s, a, b, size).kids[c]
    ensures var t := Renamed(s, a, b, size); k in t.live && k !in t.loose && t.up[k] == c
  {
    hide RefsWF, NoDup, ToAll;
    assert b !in s.kids[To(b, a, c)];
    RenamedMember(a, b, s.kids[To(b, a, c)], k);
  }

  lemma RenamedRank(s: Forest, a: Ptr, b: Ptr, size: nat, x: Ptr)
    requires Renamable(s, a, b) && x in s.live - {a} + {b}
    ensures var t, y := Renamed(s, a, b, size), To(b, a, x);
      x in t.live && x in t.rank && y in s.live && t.rank[x] == s.rank[y]
  {
    hide TreeWF, RefsWF, ToAll;
  }

  lemma RenamedUp(s: Forest, a: Ptr, b: Ptr, size: nat, c: Ptr)
    requires Renamable(s, a, b) && Keyed(Renamed(s, a, b, size))
    requires c in Renamed(s, a, b, size).live && Renamed(s, a, b, size).up[c] != NULL
    ensures var t := Renamed(s, a, b, size);
            t.up[c] in t.live && t.rank[t.up[c]] < t.rank[c] && c in t.kids[t.up[c]]
  {
    hide RefsWF, NoDup, ToAll, Renamed;
    var c0 := To(b, a, c);
    TargetsSame(s, a, b, size);
    RenamedAt(s, a, b, size, c);
    RenamedRank(s, a, b, size, c);
    assert s.up[c0] in s.live && s.up[c0] != b && c0 in s.kids[s.up[c0]];
    RenamedAt(s, a, b, size, To(a, b, s.up[c0]));
    RenamedRank(s, a, b, size, To(a, b, s.up[c0]));
    var ks := s.kids[s.up[c0]];
    var i :| 0 <= i < |ks| && ks[i] == c0;
    assert ToAll(a, b, ks)[i] == c;
  }

  lemma RenamedTree(s: Forest, a: Ptr, b: Ptr, size: nat)
    requires Renamable(s, a, b) && Keyed(Renamed(s, a, b, size))
    ensures TreeWF(Renamed(s, a, b, size))
  {
    var t := Renamed(s, a, b, size);
    hide RefsWF, NoDup, ToAll;
    forall c, k {:trigger k in t.kids[c]} | c in t.live && k in t.kids[c]
      ensures k in t.live && k !in t.loose && t.up[k] == c
    {
      RenamedKid(s, a, b, size, c, k);
    }
    forall c {:trigger t.up[c]} | c in t.live && t.up[c] != NULL
      ensures t.up[c] in t.live && t.rank[t.up[c]] < t.rank[c] && c in t.kids[t.up[c]]
    {
      RenamedUp(s, a, b, size, c);
    }
    forall c {:trigger t.kids[c]} | c in t.live ensures NoDup(t.kids[c]) {
      RenamedKids(s, a, b, size, c);
    }
  }

  lemma RenamedKids(s: Forest, a: Ptr, b: Ptr, size: nat, c: Ptr)
    requires Renamable(s, a, b) && c in Renamed(s, a, b, size).live
    ensures NoDup(Renamed(s, a, b, size).kids[c])
  {
    hide RefsWF, ToAll;
    RenamedNoDup(a, b, s.kids[To(b, a, c)]);
  }

  lemma RenamedWF(s: Forest, a: Ptr, b: Ptr, size: nat)
    requires Renamable(s, a, b)
    ensures WF(Renamed(s, a, b, size))
  {
    RenamedKeyed(s, a, b, size);
    RenamedTree(s, a, b, size);
    RenamedRefs(s, a, b, size);
  }

  lemma RenamedRefs(s: Forest, a: Ptr, b: Ptr, size: nat)
    requires Renamable(s, a, b) && Keyed(Renamed(s, a, b, size))
    ensures RefsWF(Renamed(s, a, b, size))
  {
    hide TreeWF, RefsWF, NoDup, ToAll, Renamed;
    var t := Renamed(s, a, b, size);
    RenamedAt(s, a, b, size, b);
    TargetsSame(s, a, b, size);
    forall c {:trigger t.refs[c]} | c in t.live
      ensures NoDup(t.refs[c]) && forall h {:trigger h in t.refs[c]} | h in t.refs[c] :: h in t.target && t.target[h] == c
    {
      RenamedAt(s, a, b, size, c);
      RefsOf(s, To(b, a, c));
    }
    forall h {:trigger h in t.target} | h in t.target
      ensures t.target[h] in t.live && h in t.live && h in t.refs[t.target[h]] && t.kids[h] == [] && t.refs[h] == []
    {
      HandleOf(s, a, h);
      RenamedAt(s, a, b, size, h);
      RenamedAt(s, a, b, size, t.target[h]);
      NoneRenamed(a, b);
    }
    FromParts(t);
  }

  lemma RefsOf(s: Forest, c: Ptr)
    requires WF(s) && c in s.live
    ensures NoDup(s.refs[c])
    ensures forall h {:trigger h in s.refs[c]} | h in s.refs[c] :: h in s.target && s.target[h] == c
  {
  }

  lemma HandleOf(s: Forest, a: Ptr, h: Ptr)
    requires WF(s) && h in s.target && Plain(s, a) && s.refs[a] == []
    ensures h in s.live && h != a && s.target[h] in s.live && s.target[h] != a
    ensures h in s.refs[s.target[h]] && s.kids[h] == [] && s.refs[h] == []
  {
  }

  lemma NoneRenamed(a: Ptr, b: Ptr)
    ensures ToAll(a, b, []) == []
  {
  }

  lemma FromParts(t: Forest)
    requires Keyed(t) && t.loose == {}
    requires forall c {:trigger t.refs[c]} | c in t.live ::
      NoDup(t.refs[c]) && forall h {:trigger h in t.refs[c]} | h in t.refs[c] :: h in t.target && t.target[h] == c
    requires forall h {:trigger h in t.target} | h in t.target ::
      t.target[h] in t.live && h in t.live && h in t.refs[t.target[h]] && t.kids[h] == [] && t.refs[h] == []
    ensures RefsWF(t)
  {
  }

  // ----- in memory

  /** The chunk at a now lies at b, and its four neighbours know. */
  ghost predicate Patched(m0: Memory, m1: Memory, a: Ptr, b: Ptr, size: nat)
    requires a in m0
  {
    && m1.Keys == m0.Keys - {a} + {b}
    && m1[b] == m0[a].(size := size)
    && forall k {:trigger m1[k]} | k in m0 && k != a ::
         m1[k] == m0[k].(
           child := if k == m0[a].parent then b else m0[k].child,
           parent := if k == m0[a].child then b else m0[k].parent,
           next := if k == m0[a].prev then b else m0[k].next,
           prev := if k == m0[a].next then b else m0[k].prev)
  }

  /** The neighbours of a are those of its place. */
  ghost predicate PlacedAt(m: Memory, s: Forest, a: Ptr, j: nat)
    requires Keyed(s) && a in s.live
  {
    && a in m && m[a].child == Nth(s.kids[a], 0)
    && if s.up[a] == NULL then m[a].next == NULL && m[a].prev == NULL && m[a].parent == NULL
       else
         && s.up[a] in s.live && j < |s.kids[s.up[a]]| && s.kids[s.up[a]][j] == a
         && m[a].parent == (if j == 0 then s.up[a] else NULL)
         && m[a].prev == Nth(s.kids[s.up[a]], j - 1) && m[a].next == Nth(s.kids[s.up[a]], j + 1)
  }

  lemma RenamedPlace(m: Memory, s: Forest, a: Ptr) returns (j: nat)
    requires WF(s) && Tree(m, s) && s.loose == {} && a in s.live
    ensures PlacedAt(m, s, a, j)
  {
    j := Place(m, s, a);
    assert Linked(m, a, s.kids[a]);
    if s.up[a] != NULL { assert LinkAt(m, s.up[a], s.kids[s.up[a]], j); }
  }

  /** Children are told apart by parent and position. */
  lemma KidOf(s: Forest, c: Ptr, i: nat)
    requires WF(s) && c in s.live && i < |s.kids[c]|
    ensures var k := s.kids[c][i]; k in s.live && k != NULL && s.up[k] == c && k != c
    ensures forall j: nat {:trigger s.kids[c][j]} | j < |s.kids[c]| && s.kids[c][j] == s.kids[c][i] :: j == i
  {
    assert s.kids[c][i] in s.kids[c];
  }

  /** The links of one chunk after the patching. */
  lemma PatchedAt(m0: Memory, m1: Memory, a: Ptr, b: Ptr, size: nat, k: Ptr)
    requires a in m0 && k in m0 && Patched(m0, m1, a, b, size)
    ensures var y := To(a, b, k);
      && y in m1 && (k == a ==> SameLinks(m0[a], m1[y]))
      && (k != a && k != b ==>
            && m1[y].parent == (if k == m0[a].child then b else m0[k].parent)
            && m1[y].next == (if k == m0[a].prev then b else m0[k].next)
            && m1[y].prev == (if k == m0[a].next then b else m0[k].prev))
  {
  }

  lemma RenamedLink(m0: Memory, m1: Memory, s: Forest, a: Ptr, b: Ptr, size: nat, j: nat, c: Ptr, i: nat)
    requires Renamable(s, a, b) && PlacedAt(m0, s, a, j) && m0.Keys == s.live && Patched(m0, m1, a, b, size)
    requires c in s.live && LinkAt(m0, c, s.kids[c], i)
    ensures LinkAt(m1, To(a, b, c), ToAll(a, b, s.kids[c]), i)
  {
    hide NoDup, TreeWF, RefsWF, ToAll, Patched;
    var ks := s.kids[c];
    var k, q := ks[i], s.up[a];
    PatchedAt(m0, m1, a, b, size, k);
    KidOf(s, c, i);
    if i > 0 { KidOf(s, c, i - 1); }
    if i + 1 < |ks| { KidOf(s, c, i + 1); }
    if s.kids[a] != [] { KidOf(s, a, 0); }
    if q != NULL {
      KidOf(s, q, j);
      if j > 0 { KidOf(s, q, j - 1); }
      if j + 1 < |s.kids[q]| { KidOf(s, q, j + 1); }
    }
  }

  /** What the renamed forest says about x. */
  lemma RenamedAt(s: Forest, a: Ptr, b: Ptr, size: nat, x: Ptr)
    requires Renamable(s, a, b) && x in s.live - {a} + {b}
    ensures var t, y := Renamed(s, a, b, size), To(b, a, x);
            && y in s.live && To(a, b, y) == x && x in t.up && x in t.kids && x in t.refs
            && t.up[x] == To(a, b, s.up[y]) && t.kids[x] == ToAll(a, b, s.kids[y]) && t.refs[x] == s.refs[y]
    ensures var t, y := Renamed(s, a, b, size), To(b, a, x);
            && x in t.size && t.size[x] == (if x == b then size else s.size[y]) && (x in t.veto <==> y in s.veto)
            && (x in t.target <==> y in s.target)
    ensures var t := Renamed(s, a, b, size); t.live == s.live - {a} + {b} && t.loose == {}
  {
    hide TreeWF, RefsWF, ToAll;
  }

  /** The renamed forest is isomorphic to s: parents, all ancestors, children and
      their order correspond. */
  lemma {:induction false} RenamedAbove(s: Forest, a: Ptr, b: Ptr, size: nat, x: Ptr, y: Ptr)
    requires Renamable(s, a, b) && WF(Renamed(s, a, b, size)) && x in s.live && y in s.live
    ensures Above(Renamed(s, a, b, size), To(a, b, x), To(a, b, y)) == Above(s, x, y)
    decreases s.rank[y]
  {
    hide NoDup, RefsWF, Renamed, ToAll;
    RenamedAt(s, a, b, size, To(a, b, x));
    RenamedAt(s, a, b, size, To(a, b, y));
    if s.up[y] != NULL { RenamedAbove(s, a, b, size, x, s.up[y]); }
  }

  /** Names that mean something before the renaming stay apart. */
  lemma NamesApart(s: Forest, a: Ptr, b: Ptr, size: nat, x: Ptr)
    requires Renamable(s, a, b) && x in s.live
    ensures a != NULL && a != b && x != b && s.up[x] != b && To(a, b, x) in Renamed(s, a, b, size).live
    ensures Renamed(s, a, b, size).up[To(a, b, x)] == To(a, b, s.up[x])
    ensures forall h {:trigger h in s.target} | h in s.target ::
      && h in s.live && h != a && h != b && s.target[h] != a && s.target[h] != b
      && s.up[h] != b && h in Renamed(s, a, b, size).up && Renamed(s, a, b, size).up[h] == To(a, b, s.up[h])
  {
    hide NoDup, ToAll;
  }

  lemma RenamedHolds(s: Forest, a: Ptr, b: Ptr, size: nat, o: Ptr, h: Ptr, x: Ptr)
    requires Renamable(s, a, b) && x in s.live && o != b
    ensures Holds(Renamed(s, a, b, size), To(a, b, o), h, To(a, b, x)) == Holds(s, o, h, x)
  {
    hide NoDup, TreeWF, RefsWF, ToAll;
    NamesApart(s, a, b, size, x);
    assert h in s.target ==> h in s.up;
  }

  /** Everyone owns the chunk as often as before. */
  lemma RenamedShares(s: Forest, a: Ptr, b: Ptr, size: nat, o: Ptr, x: Ptr)
    requires Renamable(s, a, b) && x in s.live && o != b
    ensures Shares(Renamed(s, a, b, size), To(a, b, o), To(a, b, x)) == Shares(s, o, x)
    ensures Owns(Renamed(s, a, b, size), To(a, b, o), To(a, b, x)) == Owns(s, o, x)
  {
    hide NoDup, TreeWF, RefsWF, ToAll, Renamed, Holds;
    RenamedUpAt(s, a, b, size, x);
    var t := Renamed(s, a, b, size);
    forall h ensures Holds(t, To(a, b, o), h, To(a, b, x)) == Holds(s, o, h, x) {
      RenamedHolds(s, a, b, size, o, h, x);
    }
    TargetsSame(s, a, b, size);
    assert Holders(t, To(a, b, o), To(a, b, x)) == Holders(s, o, x);
  }

  lemma RenamedUpAt(s: Forest, a: Ptr, b: Ptr, size: nat, x: Ptr)
    requires Renamable(s, a, b) && x in s.live
    ensures var t, y := Renamed(s, a, b, size), To(a, b, x);
      && x in s.up && y in t.live && y in t.up && t.up[y] == To(a, b, s.up[x])
      && s.up[x] != b && x != b && a != NULL && (y in t.veto <==> x in s.veto)
  {
    NamesApart(s, a, b, size, x);
    hide NoDup, TreeWF, RefsWF, ToAll;
  }

  lemma TargetsSame(s: Forest, a: Ptr, b: Ptr, size: nat)
    requires Keyed(s) && a in s.live && b !in s.live
    ensures var t := Renamed(s, a, b, size); t.target == s.target && t.live == s.live - {a} + {b}
  {
  }

  lemma RenamedAnchor(s: Forest, a: Ptr, b: Ptr, size: nat, x: Ptr)
    requires Renamable(s, a, b) && x in s.live
    ensures var t, y := Renamed(s, a, b, size), To(a, b, x);
      Plain(t, y) == Plain(s, x) && Anchor(t, y) == Anchor(s, x)
  {
    RenamedUpAt(s, a, b, size, x);
    TargetsSame(s, a, b, size);
    NamesApart(s, a, b, size, x);
    hide NoDup, TreeWF, RefsWF, ToAll, Renamed;
  }

  /** What is kept without p is kept without it under its new name. */
  lemma {:induction false} RenamedKeptIn(s: Forest, a: Ptr, b: Ptr, size: nat, p: Ptr, x: Ptr, n: nat)
    requires Renamable(s, a, b) && x in s.live && p != b
    ensures KeptIn(Renamed(s, a, b, size), {To(a, b, p)}, To(a, b, x), n) == KeptIn(s, {p}, x, n)
    decreases n
  {
    hide NoDup, TreeWF, RefsWF, ToAll, Renamed, Owns, Anchor;
    var t, y, q := Renamed(s, a, b, size), To(a, b, x), To(a, b, p);
    RenamedUpAt(s, a, b, size, x);
    RenamedAnchor(s, a, b, size, x);
    TargetsSame(s, a, b, size);
    assert y == q <==> x == p;
    if Plain(s, x) && x != p && !Anchor(s, x) && n > 0 {
      if KeptIn(s, {p}, x, n) {
        var o :| o in s.live && Owns(s, o, x) && KeptIn(s, {p}, o, n - 1);
        RenamedShares(s, a, b, size, o, x);
        RenamedKeptIn(s, a, b, size, p, o, n - 1);
        RenamedUpAt(s, a, b, size, o);
        assert Owns(t, To(a, b, o), y);
      }
      if KeptIn(t, {q}, y, n) {
        var w :| w in t.live && Owns(t, w, y) && KeptIn(t, {q}, w, n - 1);
        var o := To(b, a, w);
        RenamedShares(s, a, b, size, o, x);
        RenamedKeptIn(s, a, b, size, p, o, n - 1);
        assert Owns(s, o, x);
      }
    }
  }

  lemma {:induction false} SumSame(w: map<Ptr, nat>, v: map<Ptr, nat>, xs: set<Ptr>)
    requires forall x | x in xs :: Weight(w, x) == Weight(v, x)
    ensures Sum(w, xs) == Sum(v, xs)
    decreases xs
  {
    if xs != {} {
      var x :| x in xs;
      SumTake(w, xs, x);
      SumTake(v, xs, x);
      SumSame(w, v, xs - {x});
    }
  }

  lemma RenamedWeight(s: Forest, a: Ptr, b: Ptr, size: nat, x: Ptr)
    requires Renamable(s, a, b) && x in s.live
    ensures var t := Renamed(s, a, b, size);
      Weight(t.size, To(a, b, x)) == (if x == a then size else Weight(s.size, x)) && x != b
  {
    hide NoDup, TreeWF, RefsWF, ToAll;
  }

  lemma RenamedUnder(s: Forest, a: Ptr, b: Ptr, size: nat, x: Ptr)
    requires Renamable(s, a, b) && WF(Renamed(s, a, b, size)) && x in s.live
    ensures b !in Under(s, x)
    ensures Under(Renamed(s, a, b, size), To(a, b, x)) ==
      if a in Under(s, x) then Under(s, x) - {a} + {b} else Under(s, x)
  {
    hide NoDup, TreeWF, RefsWF, ToAll, Renamed, Above;
    var t := Renamed(s, a, b, size);
    TargetsSame(s, a, b, size);
    forall y | y in s.live ensures Above(t, To(a, b, x), To(a, b, y)) == Above(s, x, y) && y != b {
      RenamedAbove(s, a, b, size, x, y);
    }
    forall z | z in t.live
      ensures z in Under(t, To(a, b, x)) <==> z in (if a in Under(s, x) then Under(s, x) - {a} + {b} else Under(s, x))
    {
      assert To(a, b, To(b, a, z)) == z && To(b, a, z) in s.live;
    }
  }

  /** Totals differ by what the chunk itself has grown, for the chunk and all above it. */
  lemma RenamedTotal(s: Forest, a: Ptr, b: Ptr, size: nat, x: Ptr)
    requires Renamable(s, a, b) && WF(Renamed(s, a, b, size)) && x in s.live
    ensures var t := Renamed(s, a, b, size);
      Total(t, t.size, To(a, b, x)) ==
      Total(s, s.size, x) + if Above(s, x, a) then size - Weight(s.size, a) else 0
  {
    hide NoDup, TreeWF, RefsWF, ToAll, Renamed, Above, Sum;
    var t, xs := Renamed(s, a, b, size), Under(s, x);
    RenamedUnder(s, a, b, size, x);
    forall y | y in xs - {a} ensures Weight(t.size, y) == Weight(s.size, y) {
      RenamedWeight(s, a, b, size, y);
    }
    SumSame(t.size, s.size, xs - {a});
    if a in xs {
      RenamedWeight(s, a, b, size, a);
      SumTake(s.size, xs, a);
      SumTake(t.size, xs - {a} + {b}, b);
      assert xs - {a} + {b} - {b} == xs - {a};
    } else {
      assert xs - {a} == xs;
    }
  }

  /** A chunk that realloc moves is owned by the same chunks as often as before and owns
      the same; whatever is freed next leaves the same chunks; and totals change by what
      it has grown and nothing else. */
  lemma RenamedIsomorphic(s: Forest, a: Ptr, b: Ptr, size: nat, x: Ptr)
    requires Renamable(s, a, b) && x in s.live
    ensures var t, y := Renamed(s, a, b, size), To(a, b, x);
      && WF(t) && y in t.live
      && (forall o | o != b :: Shares(t, To(a, b, o), y) == Shares(s, o, x))
      && (forall p | p != b :: y in Kept(t, {To(a, b, p)}) <==> x in Kept(s, {p}))
      && Total(t, t.size, y) == Total(s, s.size, x) + if Above(s, x, a) then size - Weight(s.size, a) else 0
  {
    hide TreeWF, RefsWF, ToAll, Renamed, Shares, KeptIn, Total, Above;
    var t, y := Renamed(s, a, b, size), To(a, b, x);
    RenamedWF(s, a, b, size);
    RenamedUpAt(s, a, b, size, x);
    forall o | o != b ensures Shares(t, To(a, b, o), y) == Shares(s, o, x) {
      RenamedShares(s, a, b, size, o, x);
    }
    forall p | p != b ensures y in Kept(t, {To(a, b, p)}) <==> x in Kept(s, {p}) {
      forall n: nat ensures KeptIn(t, {To(a, b, p)}, y, n) == KeptIn(s, {p}, x, n) {
        RenamedKeptIn(s, a, b, size, p, x, n);
      }
    }
    RenamedTotal(s, a, b, size, x);
  }

  lemma RenamedSiblings(m0: Memory, m1: Memory, s: Forest, a: Ptr, b: Ptr, size: nat, j: nat)
    requires Renamable(s, a, b) && Tree(m0, s) && PlacedAt(m0, s, a, j) && Patched(m0, m1, a, b, size)
    requires Keyed(Renamed(s, a, b, size))
    ensures Siblings(m1, Renamed(s, a, b, size))
  {
    var t := Renamed(s, a, b, size);
    hide NoDup, RefsWF, TreeWF, ToAll, Linked, Renamed, Tree;
    RenamedAt(s, a, b, size, b);
    forall x {:trigger t.kids[x]} | x in t.live ensures Linked(m1, x, t.kids[x]) {
      RenamedAt(s, a, b, size, x);
      RenamedLinked(m0, m1, s, a, b, size, j, To(b, a, x));
    }
  }

  lemma RenamedTreeLinks(m0: Memory, m1: Memory, s: Forest, a: Ptr, b: Ptr, size: nat, j: nat)
    requires Renamable(s, a, b) && Tree(m0, s) && PlacedAt(m0, s, a, j) && Patched(m0, m1, a, b, size)
    requires WF(Renamed(s, a, b, size))
    ensures Tree(m1, Renamed(s, a, b, size))
  {
    hide NoDup, RefsWF, TreeWF, ToAll, Siblings, Renamed, Patched, PlacedAt;
    var t := Renamed(s, a, b, size);
    PatchedKeys(m0, m1, a, b, size);
    RenamedSiblings(m0, m1, s, a, b, size, j);
    RenamedAt(s, a, b, size, b);
    forall x {:trigger t.up[x]} | x in t.live && t.up[x] == NULL
      ensures m1[x].next == NULL && m1[x].prev == NULL && m1[x].parent == NULL
    {
      RenamedAt(s, a, b, size, x);
      RenamedTop(m0, m1, s, a, b, size, j, To(b, a, x));
    }
  }

  lemma RenamedTop(m0: Memory, m1: Memory, s: Forest, a: Ptr, b: Ptr, size: nat, j: nat, c: Ptr)
    requires Renamable(s, a, b) && Tree(m0, s) && PlacedAt(m0, s, a, j) && Patched(m0, m1, a, b, size)
    requires c in s.live && s.up[c] == NULL
    ensures var d := To(a, b, c); d in m1 && m1[d].next == NULL && m1[d].prev == NULL && m1[d].parent == NULL
  {
    if s.kids[a] != [] { KidOf(s, a, 0); }
    if s.up[a] != NULL {
      if j > 0 { KidOf(s, s.up[a], j - 1); }
      if j + 1 < |s.kids[s.up[a]]| { KidOf(s, s.up[a], j + 1); }
    }
    hide NoDup;
    assert s.up[c] == NULL;
  }

  lemma RenamedLinked(m0: Memory, m1: Memory, s: Forest, a: Ptr, b: Ptr, size: nat, j: nat, c: Ptr)
    requires Renamable(s, a, b) && Tree(m0, s) && PlacedAt(m0, s, a, j) && Patched(m0, m1, a, b, size)
    requires c in s.live
    ensures Linked(m1, To(a, b, c), ToAll(a, b, s.kids[c]))
  {
    hide NoDup, RefsWF, LinkAt;
    var ks, ls := s.kids[c], ToAll(a, b, s.kids[c]);
    assert Linked(m0, c, ks);
    forall k | k in ls ensures k in m1 {
      assert b !in ks;
      RenamedMember(a, b, ks, k);
    }
    forall i: nat | i < |ls| ensures LinkAt(m1, To(a, b, c), ls, i) {
      assert LinkAt(m0, c, ks, i);
      RenamedLink(m0, m1, s, a, b, size, j, c, i);
    }
    RenamedChild(m0, m1, s, a, b, size, j, c);
  }

  lemma RenamedChild(m0: Memory, m1: Memory, s: Forest, a: Ptr, b: Ptr, size: nat, j: nat, c: Ptr)
    requires Renamable(s, a, b) && PlacedAt(m0, s, a, j) && m0.Keys == s.live && Patched(m0, m1, a, b, size)
    requires c in s.live && m0[c].child == Nth(s.kids[c], 0)
    ensures To(a, b, c) in m1 && m1[To(a, b, c)].child == Nth(ToAll(a, b, s.kids[c]), 0)
  {
    hide RefsWF, ToAll;
    if s.kids[c] != [] { KidOf(s, c, 0); }
    if s.up[a] != NULL { KidOf(s, s.up[a], j); }
    if s.kids[a] != [] { KidOf(s, a, 0); }
  }

  lemma NoRefsLinked(m: Memory, a: Ptr)
    requires a in m && m[a].refs == NULL
    ensures RefLinked(m, a, [])
  {
    assert forall i: nat :: !RefLinkAt(m, [], i);
  }

  lemma RenamedRefLinked(m0: Memory, m1: Memory, s: Forest, a: Ptr, b: Ptr, size: nat, c: Ptr)
    requires Renamable(s, a, b) && m0.Keys == s.live && RefLists(m0, s) && Patched(m0, m1, a, b, size)
    requires c in s.live
    ensures RefLinked(m1, To(a, b, c), s.refs[c])
  {
    hide NoDup, TreeWF, RefsWF, RefLinkAt;
    RefsLive(s);
    RefListAt(m0, s, c);
    if c == a { NoRefsLinked(m1, b); } else { RefLinkedKept(m0, m1, c, s.refs[c]); }
  }

  lemma RenamedRefLists(m0: Memory, m1: Memory, s: Forest, a: Ptr, b: Ptr, size: nat)
    requires Renamable(s, a, b) && m0.Keys == s.live && RefLists(m0, s) && Patched(m0, m1, a, b, size)
    requires WF(Renamed(s, a, b, size))
    ensures RefLists(m1, Renamed(s, a, b, size))
  {
    var t := Renamed(s, a, b, size);
    hide NoDup, TreeWF, RefsWF, Renamed, RefLinked;
    RenamedAt(s, a, b, size, b);
    forall c {:trigger t.refs[c]} | c in t.live ensures RefLinked(m1, c, t.refs[c]) {
      RenamedAt(s, a, b, size, c);
      RenamedRefLinked(m0, m1, s, a, b, size, To(b, a, c));
    }
  }

  lemma RenamedMarks(m0: Memory, m1: Memory, s: Forest, a: Ptr, b: Ptr, size: nat)
    requires Renamable(s, a, b) && m0.Keys == s.live && Marks(m0, s) && Patched(m0, m1, a, b, size)
    requires Keyed(Renamed(s, a, b, size))
    ensures m1.Keys == Renamed(s, a, b, size).live && Marks(m1, Renamed(s, a, b, size))
  {
    hide NoDup, TreeWF, RefsWF, Renamed, Patched;
    var t := Renamed(s, a, b, size);
    RenamedAt(s, a, b, size, b);
    PatchedKeys(m0, m1, a, b, size);
    forall x {:trigger m1[x]} | x in t.live
      ensures m1[x].size == t.size[x] && (m1[x].destructor == DropReference <==> x in t.target)
      ensures (m1[x].destructor == Refuses <==> x in t.veto) && m1[x].destructor != Running
    {
      RenamedAt(s, a, b, size, x);
      PatchedMark(m0, m1, a, b, size, x);
    }
  }

  lemma PatchedKeys(m0: Memory, m1: Memory, a: Ptr, b: Ptr, size: nat)
    requires a in m0 && Patched(m0, m1, a, b, size)
    ensures m1.Keys == m0.Keys - {a} + {b}
  {
  }

  lemma PatchedMark(m0: Memory, m1: Memory, a: Ptr, b: Ptr, size: nat, x: Ptr)
    requires a in m0 && b !in m0 && Patched(m0, m1, a, b, size) && x in m1
    ensures To(b, a, x) in m0
    ensures m1[x].destructor == m0[To(b, a, x)].destructor
    ensures m1[x].size == if x == b then size else m0[x].size
  {
  }

  lemma RenamedRepresents(m0: Memory, m1: Memory, s: Forest, a: Ptr, b: Ptr, size: nat, j: nat)
    requires Renamable(s, a, b) && Represents(m0, s) && PlacedAt(m0, s, a, j) && Patched(m0, m1, a, b, size)
    ensures Represents(m1, Renamed(s, a, b, size))
  {
    hide NoDup, TreeWF, RefsWF, Siblings, Tops, Stales, RefLists, Marks, Renamed, Patched;
    RenamedWF(s, a, b, size);
    RenamedTreeLinks(m0, m1, s, a, b, size, j);
    RenamedRefLists(m0, m1, s, a, b, size);
    RenamedMarks(m0, m1, s, a, b, size);
  }

  // ----- realloc in place

  /** The neighbours of a, which it points to, are other chunks and point back. */
  ghost predicate PointedBack(m: Memory, a: Ptr) {
    && a in m
    && (m[a].parent != NULL ==> m[a].parent in m && m[a].parent != a && m[m[a].parent].child == a)
    && (m[a].child != NULL ==> m[a].child in m && m[a].child != a && m[m[a].child].parent == a)
    && (m[a].prev != NULL ==> m[a].prev in m && m[a].prev != a && m[m[a].prev].next == a)
    && (m[a].next != NULL ==> m[a].next in m && m[a].next != a && m[m[a].next].prev == a)
  }

  /** m1 is m0 after tc's parent and first child have been pointed at tc. */
  ghost predicate ToldUpDown(m0: Memory, m1: Memory, tc: Ptr) {
    && tc in m0 && m1.Keys == m0.Keys
    && forall k {:trigger m1[k]} | k in m0 :: m1[k] == m0[k].(
         child := if k == m0[tc].parent then tc else m0[k].child,
         parent := if k == m0[tc].child then tc else m0[k].parent)
  }

  /** m1 is m0 after tc's neighbours in its list have been pointed at tc. */
  ghost predicate ToldSides(m0: Memory, m1: Memory, tc: Ptr) {
    && tc in m0 && m1.Keys == m0.Keys
    && forall k {:trigger m1[k]} | k in m0 :: m1[k] == m0[k].(
         next := if k == m0[tc].prev then tc else m0[k].next,
         prev := if k == m0[tc].next then tc else m0[k].prev)
  }

  /** A chunk that stayed tells its neighbours nothing new. */
  lemma ToldInPlace(m0: Memory, m1: Memory, m2: Memory, a: Ptr)
    requires NULL !in m0 && PointedBack(m0, a) && ToldUpDown(m0, m1, a) && ToldSides(m1, m2, a)
    ensures m2 == m0
  {
    assert m1 == m0;
  }

  lemma ToldMoved(m0: Memory, m1: Memory, m2: Memory, m3: Memory, a: Ptr, b: Ptr, size: nat)
    requires NULL !in m0 && PointedBack(m0, a) && b !in m0 && b != NULL && m1 == (m0 - {a})[b := m0[a]]
    requires ToldUpDown(m1, m2, b) && ToldSides(m2, m3, b)
    ensures b in m3 && Patched(m0, m3[b := m3[b].(size := size)], a, b, size)
  {
  }

  lemma Neighbours(m: Memory, s: Forest, a: Ptr)
    requires WF(s) && Tree(m, s) && s.loose == {} && a in s.live
    ensures NULL !in m && PointedBack(m, a)
  {
    hide NoDup, TreeWF, RefsWF, Tops, Stales;
    var j := RenamedPlace(m, s, a);
    if s.kids[a] != [] {
      KidOf(s, a, 0);
      LinkOf(m, s, a, 0);
    }
    var q := s.up[a];
    if q != NULL {
      KidOf(s, q, j);
      LinkOf(m, s, q, j);
      if j > 0 { KidOf(s, q, j - 1); LinkOf(m, s, q, j - 1); }
      if j + 1 < |s.kids[q]| { KidOf(s, q, j + 1); LinkOf(m, s, q, j + 1); }
    }
  }

  lemma LinkOf(m: Memory, s: Forest, c: Ptr, i: nat)
    requires WF(s) && Tree(m, s) && c in s.live && i < |s.kids[c]|
    ensures LinkAt(m, c, s.kids[c], i) && c in m && m[c].child == Nth(s.kids[c], 0)
  {
    assert Linked(m, c, s.kids[c]);
  }

  lemma ResizedWF(s: Forest, t: Forest)
    requires WF(s) && t == s.(size := t.size) && s.live <= t.size.Keys
    ensures WF(t)
  {
    hide NoDup;
  }

  lemma ResizedRepresents(m: Memory, s: Forest, a: Ptr, size: nat)
    requires Represents(m, s) && a in s.live && a in m
    ensures Represents(m[a := m[a].(size := size)], s.(size := s.size[a := size]))
  {
    hide NoDup, TreeWF, RefsWF, Siblings, Tops, Stales, RefLists;
    var m1, t := m[a := m[a].(size := size)], s.(size := s.size[a := size]);
    ResizedWF(s, t);
    RefsLive(s);
    TreeKept(m, m1, s, t);
    RefListsKept(m, m1, s, t);
  }
}
