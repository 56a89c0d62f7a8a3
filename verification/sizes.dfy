/** What lies below a chunk, how much it weighs, and how a move shifts weight. */
module Sizes {
  import opened Forests
  import opened Freeing

  // ----- sums

  ghost function Weight(w: map<Ptr, nat>, x: Ptr): nat { if x in w then w[x] else 0 }

  ghost function Sum(w: map<Ptr, nat>, a: set<Ptr>): nat {
    if a == {} then 0
    else
      var x :| x in a;
      Weight(w, x) + Sum(w, a - {x})
  }

  lemma {:induction false} SumTake(w: map<Ptr, nat>, a: set<Ptr>, x: Ptr)
    requires x in a
    ensures Sum(w, a) == Weight(w, x) + Sum(w, a - {x})
    decreases a
  {
    var y :| y in a && Sum(w, a) == Weight(w, y) + Sum(w, a - {y});
    if y != x {
      SumTake(w, a - {y}, x);
      SumTake(w, a - {x}, y);
      assert a - {x} - {y} == a - {y} - {x};
    }
  }

  lemma {:induction false} SumUnion(w: map<Ptr, nat>, a: set<Ptr>, b: set<Ptr>)
    requires a !! b
    ensures Sum(w, a + b) == Sum(w, a) + Sum(w, b)
    decreases a
  {
    if a == {} {
      assert a + b == b;
    } else {
      var x :| x in a;
      SumTake(w, a, x);
      SumTake(w, a + b, x);
      SumUnion(w, a - {x}, b);
      assert (a + b) - {x} == (a - {x}) + b;
    }
  }

  // ----- what lies below a chunk

  /** a and everything below it. */
  ghost function Under(s: Forest, a: Ptr): set<Ptr>
    requires WF(s)
  {
    set x | x in s.live && Above(s, a, x)
  }

  /** The total weight of the subtree of a. */
  ghost function Total(s: Forest, w: map<Ptr, nat>, a: Ptr): nat
    requires WF(s)
  {
    Sum(w, Under(s, a))
  }

  /** What lies below one of the first n children of c. */
  ghost function UnderKids(s: Forest, c: Ptr, n: nat): set<Ptr>
    requires WF(s) && c in s.live && n <= |s.kids[c]|
  {
    set x | x in s.live && exists i :: 0 <= i < n && Above(s, s.kids[c][i], x)
  }

  lemma {:induction false} BelowKid(s: Forest, c: Ptr, x: Ptr) returns (i: nat)
    requires WF(s) && s.loose == {} && Above(s, c, x) && x != c
    ensures c in s.live && i < |s.kids[c]| && Above(s, s.kids[c][i], x)
    decreases s.rank[x]
  {
    AboveRank(s, c, x);
    if s.up[x] == c {
      i :| 0 <= i < |s.kids[c]| && s.kids[c][i] == x;
    } else {
      i := BelowKid(s, c, s.up[x]);
    }
  }

  lemma {:induction false} AboveKid(s: Forest, c: Ptr, i: nat, x: Ptr)
    requires WF(s) && c in s.live && i < |s.kids[c]| && Above(s, s.kids[c][i], x)
    ensures Above(s, c, x) && x != c
    decreases s.rank[x]
  {
    var k := s.kids[c][i];
    assert k in s.kids[c];
    AboveRank(s, k, x);
    if x != k { AboveKid(s, c, i, s.up[x]); }
  }

  /** No chunk lies below two children of c. */
  lemma {:induction false} KidsApart(s: Forest, c: Ptr, i: nat, j: nat, x: Ptr)
    requires WF(s) && c in s.live && i < |s.kids[c]| && j < |s.kids[c]|
    requires Above(s, s.kids[c][i], x) && Above(s, s.kids[c][j], x)
    ensures i == j
    decreases s.rank[x]
  {
    var a, b := s.kids[c][i], s.kids[c][j];
    assert a in s.kids[c] && b in s.kids[c];
    if x == a && x != b {
      AboveRank(s, b, c);
    } else if x == b && x != a {
      AboveRank(s, a, c);
    } else if x != a && x != b {
      KidsApart(s, c, i, j, s.up[x]);
    }
  }

  lemma UnderSplit(s: Forest, c: Ptr)
    requires WF(s) && s.loose == {} && c in s.live
    ensures Under(s, c) == {c} + UnderKids(s, c, |s.kids[c]|)
    ensures c !in UnderKids(s, c, |s.kids[c]|)
  {
    var n := |s.kids[c]|;
    forall x ensures x in Under(s, c) <==> x == c || x in UnderKids(s, c, n) {
      if x in Under(s, c) && x != c { var i := BelowKid(s, c, x); }
      if x in UnderKids(s, c, n) {
        var i :| 0 <= i < n && Above(s, s.kids[c][i], x);
        AboveKid(s, c, i, x);
      }
    }
    forall i | 0 <= i < n ensures !Above(s, s.kids[c][i], c) {
      if Above(s, s.kids[c][i], c) { AboveKid(s, c, i, c); }
    }
  }

  /** One more child. */
  lemma UnderKidsGrow(s: Forest, w: map<Ptr, nat>, c: Ptr, n: nat)
    requires WF(s) && c in s.live && n < |s.kids[c]|
    ensures Sum(w, UnderKids(s, c, n + 1)) == Sum(w, UnderKids(s, c, n)) + Total(s, w, s.kids[c][n])
  {
    var a, b := UnderKids(s, c, n), Under(s, s.kids[c][n]);
    assert UnderKids(s, c, n + 1) == a + b;
    forall x | x in a && x in b ensures false {
      var i :| 0 <= i < n && Above(s, s.kids[c][i], x);
      KidsApart(s, c, i, n, x);
    }
    SumUnion(w, a, b);
  }

  // ----- a move shifts the weight of a subtree

  lemma {:induction false} AboveTrans(s: Forest, a: Ptr, b: Ptr, x: Ptr)
    requires WF(s) && Above(s, a, b) && Above(s, b, x)
    ensures Above(s, a, x)
    decreases s.rank[x]
  {
    if x != b { AboveTrans(s, a, b, s.up[x]); }
  }

  /** t is s after c has moved to q, whatever the ranks. */
  ghost predicate Moved(s: Forest, c: Ptr, q: Ptr, t: Forest)
    requires WF(s)
  {
    && c in s.live && (q != NULL ==> q in s.live && !Above(s, c, q))
    && t.live == s.live && t.up == s.up[c := q]
  }

  /** What is not below c stays where it is. */
  lemma {:induction false} AboveAside(s: Forest, c: Ptr, q: Ptr, t: Forest, a: Ptr, x: Ptr)
    requires WF(s) && WF(t) && Moved(s, c, q, t) && !Above(s, c, x)
    ensures Above(t, a, x) == Above(s, a, x)
    decreases if x in s.live then s.rank[x] else 0
  {
    if x in s.live && s.up[x] != NULL { AboveAside(s, c, q, t, a, s.up[x]); }
  }

  /** What is below c comes below q and all above it. */
  lemma {:induction false} AboveWithin(s: Forest, c: Ptr, q: Ptr, t: Forest, a: Ptr, x: Ptr)
    requires WF(s) && WF(t) && Moved(s, c, q, t) && Above(s, c, x)
    ensures Above(t, a, x) <==> (Above(s, c, a) && Above(s, a, x)) || Above(s, a, q)
    decreases s.rank[x]
  {
    AboveRank(s, c, x);
    if x == c {
      if q in s.live { AboveAside(s, c, q, t, a, q); }
      if Above(s, c, a) && Above(s, a, c) { AboveRank(s, c, a); AboveRank(s, a, c); }
      if Above(s, a, c) && Above(s, c, a) && a != c { AboveRank(s, c, s.up[a]); }
    } else {
      AboveWithin(s, c, q, t, a, s.up[x]);
      if a == x { if Above(s, a, q) { AboveTrans(s, c, a, q); } }
    }
  }

  /** Something outside c's subtree is above what is inside exactly if it is above
      c's parent. */
  lemma {:induction false} UnderOutside(s: Forest, c: Ptr, a: Ptr, x: Ptr)
    requires WF(s) && c in s.live && Above(s, c, x) && !Above(s, c, a)
    ensures Above(s, a, x) <==> Above(s, a, s.up[c])
    decreases s.rank[x]
  {
    AboveRank(s, c, x);
    if x == c {
      assert a != c;
    } else {
      assert a != x;
      UnderOutside(s, c, a, s.up[x]);
    }
  }

  lemma MoveWithin(s: Forest, c: Ptr, q: Ptr, t: Forest, a: Ptr)
    requires WF(s) && WF(t) && Moved(s, c, q, t) && Above(s, c, a)
    ensures Under(t, a) == Under(s, a) && !Above(s, a, q) && !Above(s, a, s.up[c])
  {
    hide NoDup, TreeWF, RefsWF, Above;
    if Above(s, a, q) { AboveTrans(s, c, a, q); }
    AboveParent(s, c);
    if Above(s, a, s.up[c]) { AboveTrans(s, c, a, s.up[c]); }
    forall x | x in s.live ensures Above(t, a, x) == Above(s, a, x) {
      if Above(s, c, x) {
        AboveWithin(s, c, q, t, a, x);
      } else {
        AboveAside(s, c, q, t, a, x);
        if Above(s, a, x) { AboveTrans(s, c, a, x); }
      }
    }
  }

  lemma AboveParent(s: Forest, c: Ptr)
    requires WF(s) && c in s.live
    ensures !Above(s, c, s.up[c])
  {
    if Above(s, c, s.up[c]) { AboveRank(s, c, s.up[c]); }
  }

  lemma MoveOutside(s: Forest, c: Ptr, q: Ptr, t: Forest, a: Ptr)
    requires WF(s) && WF(t) && Moved(s, c, q, t) && !Above(s, c, a)
    ensures var rest := Under(s, a) - Under(s, c);
            && Under(s, a) == rest + (if Above(s, a, s.up[c]) then Under(s, c) else {})
            && Under(t, a) == rest + (if Above(s, a, q) then Under(s, c) else {})
  {
    hide NoDup, TreeWF, RefsWF, Above;
    forall x | x in s.live
      ensures if Above(s, c, x) then Above(s, a, x) == Above(s, a, s.up[c]) && Above(t, a, x) == Above(s, a, q)
              else Above(t, a, x) == Above(s, a, x)
    {
      if Above(s, c, x) {
        AboveWithin(s, c, q, t, a, x);
        UnderOutside(s, c, a, x);
      } else {
        AboveAside(s, c, q, t, a, x);
      }
    }
  }

  /** Moving c from its parent to q takes the weight of c's subtree from the former
      parent and all above it, and gives it to q and all above it. */
  lemma MoveWeights(s: Forest, w: map<Ptr, nat>, c: Ptr, q: Ptr, t: Forest, a: Ptr)
    requires WF(s) && WF(t) && Moved(s, c, q, t) && a in s.live
    ensures Total(t, w, a) + (if Above(s, a, s.up[c]) then Total(s, w, c) else 0) ==
            Total(s, w, a) + (if Above(s, a, q) then Total(s, w, c) else 0)
  {
    hide TreeWF, RefsWF, Under, Above, Sum;
    if Above(s, c, a) {
      MoveWithin(s, c, q, t, a);
    } else {
      MoveOutside(s, c, q, t, a);
      var rest := Under(s, a) - Under(s, c);
      SumUnion(w, rest, Under(s, c));
      assert rest + {} == rest;
    }
  }

  /** So it is for talloc_steal, which moves c to q. */
  lemma StealShiftsWeights(s: Forest, w: map<Ptr, nat>, c: Ptr, q: Ptr, t: Forest, a: Ptr)
    requires WF(s) && WF(t) && c in s.live && a in s.live && (q != NULL ==> q in s.live && !Above(s, c, q))
    requires t.(rank := s.rank) == Move(s, c, q)
    ensures Total(t, w, a) + (if Above(s, a, s.up[c]) then Total(s, w, c) else 0) ==
            Total(s, w, a) + (if Above(s, a, q) then Total(s, w, c) else 0)
  {
    hide RefsWF;
    var u := Move(s, c, q);
    assert t.live == u.live && t.up == u.up;
    MoveWeights(s, w, c, q, t, a);
  }

  /** Every chunk's total after c has moved to q. */
  ghost predicate WeightsShifted(s: Forest, w: map<Ptr, nat>, c: Ptr, q: Ptr, t: Forest)
    requires WF(s) && WF(t) && c in s.live
  {
    forall a {:trigger Total(t, w, a)} | a in s.live ::
      Total(t, w, a) + (if Above(s, a, s.up[c]) then Total(s, w, c) else 0) ==
      Total(s, w, a) + (if Above(s, a, q) then Total(s, w, c) else 0)
  }

  lemma StealShiftsAll(s: Forest, w: map<Ptr, nat>, c: Ptr, q: Ptr, t: Forest)
    requires WF(s) && WF(t) && c in s.live && (q != NULL ==> q in s.live && !Above(s, c, q))
    requires t.(rank := s.rank) == Move(s, c, q)
    ensures WeightsShifted(s, w, c, q, t)
  {
    hide NoDup, TreeWF, RefsWF, Above, Total;
    forall a {:trigger Total(t, w, a)} | a in s.live
      ensures Total(t, w, a) + (if Above(s, a, s.up[c]) then Total(s, w, c) else 0) ==
              Total(s, w, a) + (if Above(s, a, q) then Total(s, w, c) else 0)
    {
      StealShiftsWeights(s, w, c, q, t, a);
    }
  }

  // ----- counting blocks

  ghost function Ones(s: Forest): map<Ptr, nat> {
    map x | x in s.live :: 1
  }

  lemma {:induction false} SumOnes(s: Forest, a: set<Ptr>)
    requires a <= s.live
    ensures Sum(Ones(s), a) == |a|
    decreases a
  {
    if a != {} {
      var x :| x in a;
      SumTake(Ones(s), a, x);
      SumOnes(s, a - {x});
    }
  }

  /** The chunks that rank deeper than a. */
  ghost function Deeper(s: Forest, a: Ptr): set<Ptr>
    requires WF(s)
  {
    set x | x in s.live && a in s.live && s.rank[x] > s.rank[a]
  }

  lemma KidDeeper(s: Forest, c: Ptr, n: nat)
    requires WF(s) && c in s.live && n < |s.kids[c]|
    ensures var k := s.kids[c][n]; k in s.live && k != NULL && s.rank[k] > s.rank[c] && Deeper(s, k) < Deeper(s, c)
  {
    var k := s.kids[c][n];
    assert k in s.kids[c];
    assert k in Deeper(s, c) && k !in Deeper(s, k);
  }

  lemma UnderLive(s: Forest, a: Ptr)
    requires WF(s)
    ensures Under(s, a) <= s.live
  {
  }

  /** The weight of c's subtree once all its children are summed up. */
  lemma TotalSplit(s: Forest, w: map<Ptr, nat>, c: Ptr)
    requires WF(s) && s.loose == {} && c in s.live
    ensures Total(s, w, c) == Weight(w, c) + Sum(w, UnderKids(s, c, |s.kids[c]|))
    ensures Sum(w, UnderKids(s, c, 0)) == 0
  {
    UnderSplit(s, c);
    assert UnderKids(s, c, 0) == {};
    SumTake(w, Under(s, c), c);
    assert Under(s, c) - {c} == UnderKids(s, c, |s.kids[c]|);
  }
}
