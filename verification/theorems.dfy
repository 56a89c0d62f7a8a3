/** What a completed free means for the chunks, their owners and their places. */
module FreeTheorems {
  import opened Forests
  import opened Ownership
  import opened Heirs
  import opened Freeing
  import opened Acyclicity

  ghost function PlainChunks(s: Forest): set<Ptr> {
    set x | x in s.live && Plain(s, x)
  }

  /** Freeing is reachability: the chunks that are left are those that can still
      be reached when p is taken out of the ownership graph. */
  lemma FreeIsReachability(s: Forest, p: Ptr, t: Forest)
    requires WF(s) && s.loose == {} && p in s.live && Freed(s, p, t)
    ensures PlainChunks(t) == Kept(s, {p})
  {
    assert s.loose + {p} == {p} && t.loose == {};
    AllKept(t);
    KeptPlain(t, {});
  }

  /** The shares in what is left, once no reference to p is. */
  lemma FreedShares(s: Forest, p: Ptr, t: Forest, o: Ptr, x: Ptr)
    requires WF(s) && s.loose == {} && Plain(s, p) && Freed(s, p, t)
    requires o in t.live && Plain(t, x)
    ensures Shares(t, o, x) ==
            Shares(s, o, x) + (if o == s.up[p] && s.up[x] != NULL && Ownerless(s, t, x) then 1 else 0)
  {
    hide TreeWF, RefsWF;
    assert ShareKept(s, t, s.up[p], o, x);
    if o == s.up[p] && s.up[x] != NULL && Ownerless(s, t, x) && Shares(t, o, x) == Shares(s, o, x) {
      OrphanPlaced(s, p, t, x);
    } else if Shares(t, o, x) != Shares(s, o, x) {
      assert Shares(s, o, x) == 0;
      TopStays(s, p, t, x);
    }
  }

  /** A chunk at top level stays there. */
  lemma TopStays(s: Forest, p: Ptr, t: Forest, x: Ptr)
    requires WF(s) && s.loose == {} && p in s.live && Freed(s, p, t) && x in t.live
    ensures s.up[x] == NULL ==> t.up[x] == NULL
  {
    hide TreeWF, RefsWF;
    assert ParentsKept(s, t, s.up[p]);
    assert t.up[x] == t.up[x];
  }

  /** A chunk that has lost every owner is now a child of p's former parent. */
  lemma OrphanPlaced(s: Forest, p: Ptr, t: Forest, x: Ptr)
    requires WF(s) && s.loose == {} && p in s.live && Freed(s, p, t)
    requires Plain(t, x) && s.up[x] != NULL && Ownerless(s, t, x)
    ensures t.up[x] == s.up[p] && x in s.veto
    ensures t.up[x] != NULL ==> Shares(t, t.up[x], x) == 1
  {
    FreeIsReachability(s, p, t);
    assert x in Kept(s, {p});
    assert x in t.live && t.loose == {};
    if !Anchor(s, x) {
      var o := KeptOwner(s, {p}, x);
      assert o in PlainChunks(t);
      OwnerShares(s, o, x);
    }
    var o := t.up[x];
    if o == NULL {
      assert ParentsKept(s, t, s.up[p]);
    } else {
      assert o in t.live;
      OwnerShares(t, o, x);
      assert ShareKept(s, t, s.up[p], o, x);
      assert Shares(s, o, x) == 0;
    }
  }

  lemma OwnerShares(s: Forest, o: Ptr, x: Ptr)
    requires x in s.up
    ensures Owns(s, o, x) <==> Shares(s, o, x) > 0
  {
    if exists h :: Holds(s, o, h, x) {
      var h :| Holds(s, o, h, x);
      assert h in Holders(s, o, x);
    }
    if Shares(s, o, x) > 0 && !(x in s.up && s.up[x] == o) {
      assert Holders(s, o, x) != {};
      var h :| h in Holders(s, o, x);
      assert Holds(s, o, h, x);
    }
  }

  // ----- what a call of talloc_free does

  /** s with the ranks of t, which are not stored. */
  ghost function RankedAs(s: Forest, t: Forest): Forest {
    s.(rank := t.rank)
  }

  /** The outcome of talloc_free(p), called on a heap at rest. */
  ghost predicate FreeCall(s: Forest, p: Ptr, ret: int, t: Forest) {
    WF(s) && Plain(s, p) && WF(RankedAs(s, t)) && FreeOutcome(RankedAs(s, t), p, ret, t)
  }

  /** The latest reference to p does not come from below p. */
  ghost predicate Elsewhere(s: Forest, p: Ptr)
    requires WF(s) && Plain(s, p)
  {
    s.refs[p] != [] && !Above(s, p, s.refs[p][0])
  }

  lemma HandleParts(s: Forest, h: Ptr)
    requires WF(s) && h in s.target
    ensures h in s.live && h in s.up && s.target[h] in s.live && s.target[h] in s.refs && (s.up[h] != NULL ==> s.up[h] in s.kids)
    ensures WF(FreeHandle(s, h))
  {
    FreeHandleWF(s, h);
  }

  /** The latest reference to p, and p without it. */
  lemma LatestHandle(s: Forest, p: Ptr)
    requires WF(s) && Plain(s, p) && s.refs[p] != []
    ensures var h := s.refs[p][0];
      && h in s.target && s.target[h] == p && h in s.live && h in s.up && (s.up[h] != NULL ==> s.up[h] in s.kids)
      && var u := FreeHandle(s, h);
        && WF(u) && Plain(u, p) && u.refs[p] == Without(s.refs[p], h) && |u.refs[p]| == |s.refs[p]| - 1
  {
    hide TreeWF, Without;
    assert s.refs[p][0] in s.refs[p];
    HandleParts(s, s.refs[p][0]);
    WithoutFacts(s.refs[p], s.refs[p][0]);
  }

  lemma ReturnsEither(s: Forest, p: Ptr, ret: int, t: Forest)
    requires WF(s) && Plain(s, p) && FreeOutcome(s, p, ret, t)
    ensures ret in {0, -1}
  {
  }

  /** A reference to p plays no part in what is kept without p. */
  lemma HandleAside(s: Forest, h: Ptr)
    requires WF(s) && h in s.target
    ensures Kept(FreeHandle(s, h), {s.target[h]}) == Kept(s, {s.target[h]})
  {
    hide NoDup, Without, TreeWF, RefsWF;
    HandleParts(s, h);
    var t, p := FreeHandle(s, h), s.target[h];
    forall o, y | y != p ensures Owns(s, o, y) == Owns(t, o, y) {
      forall g ensures Holds(s, o, g, y) == Holds(t, o, g, y) {}
    }
    KeptSame(s, {p}, t, {p});
  }

  lemma {:induction false} ShedKept(s: Forest, p: Ptr)
    requires WF(s) && Plain(s, p)
    ensures Kept(Shed(s, p), {p}) == Kept(s, {p})
    decreases |s.refs[p]|
  {
    hide TreeWF, Above;
    if s.refs[p] != [] && Above(s, p, s.refs[p][0]) {
      var h := s.refs[p][0];
      LatestHandle(s, p);
      HandleAside(s, h);
      ShedKept(FreeHandle(s, h), p);
    }
  }

  /** A call that frees leaves exactly what can be reached without p, whoever refers to p. */
  lemma FreedIsReachability(s: Forest, p: Ptr, t: Forest)
    requires s.loose == {} && FreeCall(s, p, 0, t)
    ensures PlainChunks(t) == Kept(s, {p})
  {
    hide NoDup, TreeWF, RefsWF, Freed;
    ShedFacts(RankedAs(s, t), p);
    ShedKept(RankedAs(s, t), p);
    FreeIsReachability(Shed(RankedAs(s, t), p), p, t);
    KeptSorted(s, RankedAs(s, t), {p});
  }

  lemma FreedGone(s: Forest, p: Ptr, t: Forest)
    requires FreeCall(s, p, 0, t)
    ensures p !in t.live
  {
    hide NoDup, TreeWF, RefsWF, Progress, Steady, Kept;
  }

  /** Only references to p are shed. */
  lemma {:induction false} ShedShares(s: Forest, p: Ptr, o: Ptr, x: Ptr)
    requires WF(s) && Plain(s, p) && x != p
    ensures Shares(Shed(s, p), o, x) == Shares(s, o, x)
    decreases |s.refs[p]|
  {
    hide TreeWF, Above, Shares;
    if s.refs[p] != [] && Above(s, p, s.refs[p][0]) {
      var h := s.refs[p][0];
      LatestHandle(s, p);
      HandleShares(s, h, o, x);
      ShedShares(FreeHandle(s, h), p, o, x);
    }
  }

  /** Nobody who stays gains or loses a share in a chunk that stays, except that p's
      former parent takes over the chunks that refuse to go and have lost every owner. */
  lemma OwnersConserved(s: Forest, p: Ptr, t: Forest, o: Ptr, x: Ptr)
    requires s.loose == {} && FreeCall(s, p, 0, t) && o in t.live && Plain(t, x) && x in s.live
    ensures Shares(t, o, x) ==
            Shares(s, o, x) + (if o == s.up[p] && s.up[x] != NULL && Ownerless(s, t, x) then 1 else 0)
  {
    hide NoDup, TreeWF, RefsWF, Shares, Ownerless, Progress, Steady, Kept;
    var r := RankedAs(s, t);
    ShedFacts(r, p);
    var u := Shed(r, p);
    assert x != p;
    FreedShares(u, p, t, o, x);
    forall b ensures Shares(u, b, x) == Shares(s, b, x) {
      ShedShares(r, p, b, x);
      SharesSame(r, s, b, x);
    }
    OwnerlessSame(u, s, t, x);
  }

  lemma OwnerlessSame(s: Forest, u: Forest, t: Forest, x: Ptr)
    requires forall b {:trigger Shares(s, b, x)} {:trigger Shares(u, b, x)} :: Shares(s, b, x) == Shares(u, b, x)
    ensures Ownerless(s, t, x) == Ownerless(u, t, x)
  {
    hide Shares;
  }

  // ----- heirs

  lemma {:induction false} ShedRefs(s: Forest, p: Ptr, x: Ptr)
    requires WF(s) && Plain(s, p) && Plain(s, x) && x != p
    ensures var u := Shed(s, p); Plain(u, x) && x in u.refs && u.refs[x] == s.refs[x]
    decreases |s.refs[p]|
  {
    hide TreeWF, Above;
    if s.refs[p] != [] && Above(s, p, s.refs[p][0]) {
      var h := s.refs[p][0];
      LatestHandle(s, p);
      HandleUp(s, h);
      HandleFields(s, h);
      ShedRefs(FreeHandle(s, h), p, x);
    }
  }

  lemma FreedBounds(s: Forest, p: Ptr, t: Forest)
    requires s.loose == {} && FreeCall(s, p, 0, t)
    ensures t.live <= s.live && WF(t)
  {
    hide NoDup, TreeWF, RefsWF, Held, Kept, Above;
    ShedFacts(RankedAs(s, t), p);
  }

  lemma StillPlain(s: Forest, t: Forest, x: Ptr)
    requires Keyed(s) && Keyed(t) && t.live <= s.live && HandlesKept(s, t) && Plain(s, x) && x in t.live
    ensures Plain(t, x)
  {
  }

  lemma UpsStay(t: Forest, x: Ptr)
    requires WF(t) && x in t.live
    ensures t.up[x] in t.live + {NULL} && forall h | h in t.refs[x] :: h in t.up && t.up[h] in t.live + {NULL}
  {
    forall h | h in t.refs[x] ensures h in t.up && t.up[h] in t.live + {NULL} {
      assert h in t.target;
    }
  }

  lemma HeirOf(s: Forest, p: Ptr, t: Forest, x: Ptr)
    requires s.loose == {} && FreeCall(s, p, 0, t) && Plain(s, x) && x in t.live
    ensures var stay := t.live + {NULL};
      var hs := Held(s, s.refs[x], stay);
      x in t.up && x in t.refs &&
      if s.up[x] in stay then t.up[x] == s.up[x] && t.refs[x] == hs
      else if hs != [] then hs[0] in s.up && t.up[x] == s.up[hs[0]] && t.refs[x] == hs[1..]
      else t.up[x] == s.up[p] && x in s.veto && t.refs[x] == []
  {
    hide NoDup, TreeWF, RefsWF, Held, Kept, Above;
    var r := RankedAs(s, t);
    ShedFacts(r, p);
    var u := Shed(r, p);
    assert Freed(u, p, t);
    assert x != p;
    ShedRefs(r, p, x);
    StillPlain(u, t, x);
    assert PlaceKept(u, t, u.up[p], x);
    assert Staying(t) == t.live + {NULL};
    HeldUp(s, u, s.refs[x], t.live + {NULL});
    UpsStay(t, x);
    HeldAll(t, t.refs[x], t.live + {NULL});
  }

  /** Whose child a chunk is after a call that frees p, and what refers to it. If its
      parent is left it stays there. Else the first of its references, latest first, whose
      holder is left makes that holder the parent. If there is none it refused to go, and
      p's parent has it. All other references with holders that are left stay, in order. */
  lemma HeirsInOrder(s: Forest, p: Ptr, t: Forest)
    requires s.loose == {} && FreeCall(s, p, 0, t)
    ensures t.live <= s.live && WF(t)
    ensures forall x {:trigger t.up[x]} {:trigger t.refs[x]} | x in t.live && x !in s.target ::
      var stay := t.live + {NULL};
      var hs := Held(s, s.refs[x], stay);
      if s.up[x] in stay then t.up[x] == s.up[x] && t.refs[x] == hs
      else if hs != [] then hs[0] in s.up && t.up[x] == s.up[hs[0]] && t.refs[x] == hs[1..]
      else t.up[x] == s.up[p] && x in s.veto && t.refs[x] == []
  {
    hide NoDup, TreeWF, RefsWF, FreeOutcome, Held;
    FreedBounds(s, p, t);
    forall x {:trigger t.up[x]} {:trigger t.refs[x]} | x in t.live && x !in s.target
      ensures var stay := t.live + {NULL};
        var hs := Held(s, s.refs[x], stay);
        if s.up[x] in stay then t.up[x] == s.up[x] && t.refs[x] == hs
        else if hs != [] then hs[0] in s.up && t.up[x] == s.up[hs[0]] && t.refs[x] == hs[1..]
        else t.up[x] == s.up[p] && x in s.veto && t.refs[x] == []
    {
      HeirOf(s, p, t, x);
    }
  }

  // ----- a free of a referenced chunk

  lemma OutcomeFewer(s: Forest, p: Ptr, ret: int, t: Forest)
    requires WF(s) && Plain(s, p) && FreeOutcome(s, p, ret, t)
    ensures t.live <= s.live && t.rank == s.rank
  {
    hide NoDup, TreeWF, RefsWF, Above;
    ShedFacts(s, p);
  }

  lemma LatestElsewhere(s: Forest, p: Ptr, ret: int, t: Forest)
    requires WF(s) && Plain(s, p) && s.refs[p] != [] && !Above(s, p, s.refs[p][0]) && FreeOutcome(s, p, ret, t)
    ensures s.refs[p][0] in s.target && ret == -1 && t == FreeHandle(s, s.refs[p][0])
  {
  }

  /** Once a reference from below is gone the free begins again. */
  lemma OutcomeAfter(s: Forest, p: Ptr, ret: int, t: Forest)
    requires WF(s) && Plain(s, p) && s.refs[p] != [] && Above(s, p, s.refs[p][0]) && FreeOutcome(s, p, ret, t)
    ensures var h := s.refs[p][0]; h in s.target && s.target[h] == p && WF(FreeHandle(s, h)) && Plain(FreeHandle(s, h), p)
    ensures var u := FreeHandle(s, s.refs[p][0]); FreeOutcome(u, p, ret, t) && u.refs[p] == Without(s.refs[p], s.refs[p][0])
  {
    hide NoDup, TreeWF, Above, Freed;
    LatestHandle(s, p);
  }

  /** A free of a referenced chunk drops the latest reference in any case. */
  lemma LatestGoes(s: Forest, p: Ptr, ret: int, t: Forest)
    requires WF(s) && Plain(s, p) && s.refs[p] != [] && FreeOutcome(s, p, ret, t)
    ensures s.refs[p][0] in s.live - t.live
  {
    hide NoDup, TreeWF, Above, FreeOutcome;
    var h := s.refs[p][0];
    LatestHandle(s, p);
    if !Above(s, p, h) {
      LatestElsewhere(s, p, ret, t);
    } else {
      OutcomeAfter(s, p, ret, t);
      OutcomeFewer(FreeHandle(s, h), p, ret, t);
    }
  }

  lemma OnlyLatestIn(s: Forest, p: Ptr, ret: int, t: Forest)
    requires WF(s) && Plain(s, p) && s.refs[p] != [] && FreeOutcome(s, p, ret, t)
    ensures s.refs[p][0] in s.target && WF(FreeHandle(s, s.refs[p][0]))
    ensures var h := s.refs[p][0];
      ret == -1 && t == FreeHandle(s, h) <==> !Above(s, p, h) || (|s.refs[p]| == 1 && p in s.veto)
  {
    hide NoDup, TreeWF, Above, Freed, FreeOutcome;
    var h := s.refs[p][0];
    LatestHandle(s, p);
    var u := FreeHandle(s, h);
    if !Above(s, p, h) {
      LatestElsewhere(s, p, ret, t);
    } else {
      OutcomeAfter(s, p, ret, t);
      if |s.refs[p]| == 1 {
        OutcomeFacts(u, p, ret, t);
      } else {
        LatestGoes(u, p, ret, t);
      }
    }
  }

  /** A free of a chunk whose latest reference comes from elsewhere. */
  lemma ElsewhereCall(s: Forest, p: Ptr)
    requires WF(s) && Plain(s, p) && Elsewhere(s, p)
    ensures s.refs[p][0] in s.target && WF(FreeHandle(s, s.refs[p][0]))
    ensures FreeOutcome(s, p, -1, FreeHandle(s, s.refs[p][0]))
  {
    LatestHandle(s, p);
  }

  /** Only the latest reference to p goes, which is promised of every chunk that has
      references, exactly if it does not come from below p, or it is the only one and
      p's destructor refuses. */
  lemma OnlyLatestGoes(s: Forest, p: Ptr, ret: int, t: Forest)
    requires s.loose == {} && FreeCall(s, p, ret, t) && s.refs[p] != []
    ensures s.refs[p][0] in s.target && WF(FreeHandle(s, s.refs[p][0]))
    ensures var h := s.refs[p][0];
      ret == -1 && t.(rank := s.rank) == FreeHandle(s, h) <==> !Above(s, p, h) || (|s.refs[p]| == 1 && p in s.veto)
  {
    hide NoDup, TreeWF, RefsWF, Freed, FreeOutcome;
    var r, h := RankedAs(s, t), s.refs[p][0];
    LatestHandle(s, p);
    OnlyLatestIn(r, p, ret, t);
    AboveSorted(s, r, p, h);
    OutcomeFewer(r, p, ret, t);
    assert t == FreeHandle(r, h) <==> t.(rank := s.rank) == FreeHandle(s, h);
  }

  /** What a handle's free leaves lies where it lay. */
  lemma {:induction false} AboveWithout(s: Forest, h: Ptr, a: Ptr, x: Ptr)
    requires WF(s) && h in s.target && WF(FreeHandle(s, h)) && x in s.live && x != h
    ensures Above(FreeHandle(s, h), a, x) == Above(s, a, x)
    decreases s.rank[x]
  {
    hide NoDup, RefsWF, Without;
    HandleUp(s, h);
    HandleFields(s, h);
    if s.up[x] != NULL {
      LeafParent(s, h, x);
      AboveWithout(s, h, a, s.up[x]);
    }
  }

  lemma LeafParent(s: Forest, h: Ptr, x: Ptr)
    requires WF(s) && h in s.target && x in s.live && s.up[x] != NULL
    ensures s.up[x] != h && s.up[x] in s.live && s.rank[s.up[x]] < s.rank[x]
  {
    assert x !in s.loose ==> x in s.kids[s.up[x]];
  }

  lemma DistinctHandles(s: Forest, p: Ptr, j: nat)
    requires WF(s) && p in s.live && 0 < j < |s.refs[p]|
    ensures s.refs[p][j] != s.refs[p][0] && s.refs[p][j] in s.live
  {
    assert s.refs[p][j] in s.refs[p];
  }

  /** The first i references come from below, the next one, if any, does not. */
  lemma {:induction false} ShedAt(s: Forest, p: Ptr, i: nat)
    requires WF(s) && Plain(s, p) && i <= |s.refs[p]|
    requires forall j | 0 <= j < i :: Above(s, p, s.refs[p][j])
    requires i < |s.refs[p]| ==> !Above(s, p, s.refs[p][i])
    ensures var u := Shed(s, p);
      && p in u.refs && u.refs[p] == s.refs[p][i..] && u.up == s.up && u.live == s.live - Members(s.refs[p][..i])
    decreases i
  {
    hide TreeWF, Above, FreeHandle;
    var hs := s.refs[p];
    if i > 0 {
      var h := hs[0];
      LatestHandle(s, p);
      HandleUp(s, h);
      HandleFields(s, h);
      var t := FreeHandle(s, h);
      assert Without(hs, h) == hs[1..];
      forall j {:trigger hs[1..][j]} | 0 <= j < |hs| - 1 ensures Above(t, p, hs[1..][j]) == Above(s, p, hs[j + 1]) {
        assert hs[j + 1] in hs;
        DistinctHandles(s, p, j + 1);
        AboveWithout(s, h, p, hs[j + 1]);
      }
      ShedAt(t, p, i - 1);
      assert hs[..i] == [h] + hs[1..][..i - 1];
      assert hs[1..][i - 1..] == hs[i..];
    }
  }

  lemma FirstGone(s: Forest, p: Ptr)
    requires s.refs.Keys >= {p} && s.refs[p] != []
    ensures Without(s.refs[p], s.refs[p][0]) == s.refs[p][1..]
  {
  }

  lemma ReferencesGoAt(s: Forest, p: Ptr, ret: int, t: Forest, i: nat)
    requires s.loose == {} && FreeCall(s, p, ret, t) && i <= |s.refs[p]|
    requires forall j | 0 <= j < i :: Above(s, p, s.refs[p][j])
    requires i < |s.refs[p]| ==> !Above(s, p, s.refs[p][i])
    ensures i < |s.refs[p]| ==>
      && ret == -1 && p in t.refs && t.refs[p] == s.refs[p][i + 1..] && t.up == s.up
      && t.live == s.live - Members(s.refs[p][..i + 1])
    ensures i == |s.refs[p]| ==>
      if p in s.veto then
        ret == -1 && p in t.refs && t.refs[p] == [] && t.up == s.up && t.live == s.live - Members(s.refs[p])
      else ret == 0 && p !in t.live
  {
    hide NoDup, TreeWF, RefsWF, Above, Freed, FreeHandle;
    var r, hs := RankedAs(s, t), s.refs[p];
    forall j {:trigger hs[j]} | 0 <= j < |hs| ensures Above(r, p, hs[j]) == Above(s, p, hs[j]) {
      AboveSorted(s, r, p, hs[j]);
    }
    ShedAt(r, p, i);
    ShedFacts(r, p);
    var u := Shed(r, p);
    assert i == |hs| ==> hs[..i] == hs && hs[i..] == [];
    if i < |hs| {
      LatestHandle(u, p);
      HandleUp(u, hs[i]);
      HandleFields(u, hs[i]);
      assert hs[i..][0] == hs[i] && hs[i..][1..] == hs[i + 1..];
      FirstGone(u, p);
      assert hs[..i + 1] == hs[..i] + [hs[i]];
    } else if p !in s.veto {
      FreedGone(s, p, t);
    }
  }

  /** The least index from n on of a reference to p that does not come from below p. */
  ghost function FirstElsewhere(s: Forest, p: Ptr, n: nat): (i: nat)
    requires WF(s) && Plain(s, p) && n <= |s.refs[p]|
    ensures n <= i <= |s.refs[p]| && (forall j | n <= j < i :: Above(s, p, s.refs[p][j]))
    ensures i < |s.refs[p]| ==> !Above(s, p, s.refs[p][i])
    decreases |s.refs[p]| - n
  {
    if n < |s.refs[p]| && Above(s, p, s.refs[p][n]) then FirstElsewhere(s, p, n + 1) else n
  }

  /** All that a call does to a chunk's references: those from below go, latest first, up to
      the first one from elsewhere, which goes too and ends the call with -1. Without one the
      chunk goes, unless it refuses. */
  lemma ReferencesGo(s: Forest, p: Ptr, ret: int, t: Forest)
    requires s.loose == {} && FreeCall(s, p, ret, t)
    ensures var hs, i := s.refs[p], FirstElsewhere(s, p, 0);
      if i < |hs| then
        ret == -1 && p in t.refs && t.refs[p] == hs[i + 1..] && t.up == s.up && t.live == s.live - Members(hs[..i + 1])
      else if p in s.veto then
        ret == -1 && p in t.refs && t.refs[p] == [] && t.up == s.up && t.live == s.live - Members(hs)
      else ret == 0 && p !in t.live
  {
    hide FreeOutcome, Above;
    ReferencesGoAt(s, p, ret, t, FirstElsewhere(s, p, 0));
  }

  /** A chunk whose one reference comes from below, and which does not refuse, is freed. */
  lemma InsideGoes(s: Forest, p: Ptr, ret: int, t: Forest)
    requires s.loose == {} && FreeCall(s, p, ret, t) && |s.refs[p]| == 1 && Above(s, p, s.refs[p][0]) && p !in s.veto
    ensures ret == 0 && p !in t.live && PlainChunks(t) == Kept(s, {p})
  {
    hide NoDup, TreeWF, RefsWF, FreeOutcome;
    var r, h := RankedAs(s, t), s.refs[p][0];
    LatestHandle(r, p);
    AboveSorted(s, r, p, h);
    OutcomeAfter(r, p, ret, t);
    OutcomeFacts(FreeHandle(r, h), p, ret, t);
    FreedIsReachability(s, p, t);
  }

  /** A top-level chunk, its child, and a reference to the former below the latter. */
  ghost const BELOW := Forest({1, 2, 3}, map[1 := NULL, 2 := 1, 3 := 2], map[1 := [2], 2 := [3], 3 := []],
    map[1 := [3], 2 := [], 3 := []], map[3 := 1], {}, map[1 := 0, 2 := 0, 3 := 0], {}, map[1 := 0, 2 := 1, 3 := 2])

  lemma BelowTree()
    ensures Keyed(BELOW) && TreeWF(BELOW)
  {
  }

  lemma BelowRefs()
    ensures Keyed(BELOW) && RefsWF(BELOW)
  {
    assert 3 in BELOW.refs[1];
  }

  lemma BelowInOrder()
    ensures WF(BELOW) && Above(BELOW, 1, 3)
  {
    hide NoDup, TreeWF, RefsWF;
    BelowTree();
    BelowRefs();
    assert Above(BELOW, 1, 1) && Above(BELOW, 1, 2);
  }

  lemma OnlyOneOwner()
    ensures Kept(BELOW, {1}) == {}
  {
    KeptPlain(BELOW, {1});
    if 2 in Kept(BELOW, {1}) {
      var o := KeptOwner(BELOW, {1}, 2);
    }
  }

  /** The free destroys all three although the first has an additional parent. */
  lemma ReferencedFromBelow(ret: int, t: Forest)
    requires FreeCall(BELOW, 1, ret, t)
    ensures ret == 0 && 1 !in t.live && PlainChunks(t) == {}
  {
    hide FreeCall;
    BelowInOrder();
    InsideGoes(BELOW, 1, ret, t);
    OnlyOneOwner();
  }

  // ----- without references: destructors that refuse

  /** Some chunk on the way from p, exclusive, down to x, inclusive, refuses. */
  ghost predicate Shielded(s: Forest, p: Ptr, x: Ptr)
    requires WF(s)
    decreases if x in s.live then s.rank[x] else 0
  {
    x in s.live && x != p && (x in s.veto || (s.up[x] != NULL && Shielded(s, p, s.up[x])))
  }

  lemma {:induction false} ShieldedKept(s: Forest, p: Ptr, x: Ptr)
    requires WF(s) && s.target == map[] && Shielded(s, p, x)
    ensures x in Kept(s, {p})
    decreases s.rank[x]
  {
    if x in s.veto {
      assert KeptIn(s, {p}, x, 0);
      assert IsKept(s, {p}, x);
    } else {
      ShieldedKept(s, p, s.up[x]);
      assert Owns(s, s.up[x], x);
      KeptStep(s, {p}, s.up[x], x);
    }
  }

  lemma {:induction false} UnshieldedGone(s: Forest, p: Ptr, x: Ptr)
    requires WF(s) && s.target == map[] && Above(s, p, x) && !Shielded(s, p, x)
    ensures x !in Kept(s, {p})
    decreases s.rank[x]
  {
    KeptPlain(s, {p});
    assert forall o, h :: !Holds(s, o, h, x);
    if x != p {
      UnshieldedGone(s, p, s.up[x]);
      if x in Kept(s, {p}) {
        var o := KeptOwner(s, {p}, x);
      }
    }
  }

  lemma {:induction false} AsideKept(s: Forest, p: Ptr, x: Ptr)
    requires WF(s) && s.target == map[] && x in s.live && !Above(s, p, x)
    ensures x in Kept(s, {p})
    decreases s.rank[x]
  {
    if s.up[x] == NULL {
      assert KeptIn(s, {p}, x, 0);
      assert IsKept(s, {p}, x);
    } else {
      AsideKept(s, p, s.up[x]);
      assert Owns(s, s.up[x], x);
      KeptStep(s, {p}, s.up[x], x);
    }
  }

  lemma VetoedSurvives(s: Forest, p: Ptr, t: Forest, x: Ptr)
    requires WF(s) && s.loose == {} && s.target == map[] && p in s.live && Freed(s, p, t) && x in s.live
    ensures x in t.live <==> !Above(s, p, x) || Shielded(s, p, x)
    ensures x in t.live ==> t.up[x] == if Above(s, p, x) && !Shielded(s, p, s.up[x]) then s.up[p] else s.up[x]
  {
    FreeIsReachability(s, p, t);
    assert t.target == map[] by { assert HandlesKept(s, t); }
    if !Above(s, p, x) { AsideKept(s, p, x); }
    else if Shielded(s, p, x) { ShieldedKept(s, p, x); }
    else { UnshieldedGone(s, p, x); }
    assert x in t.live <==> x in PlainChunks(t);
    if x in t.live { VetoedPlace(s, p, t, x); }
  }

  lemma VetoedPlace(s: Forest, p: Ptr, t: Forest, x: Ptr)
    requires WF(s) && s.loose == {} && s.target == map[] && p in s.live && Freed(s, p, t) && x in t.live
    requires Above(s, p, x) ==> Shielded(s, p, x)
    ensures t.up[x] == if Above(s, p, x) && !Shielded(s, p, s.up[x]) then s.up[p] else s.up[x]
  {
    FreeIsReachability(s, p, t);
    assert HandlesKept(s, t) && ParentsKept(s, t, s.up[p]);
    assert t.up[x] == t.up[x];
    var o := s.up[x];
    if Above(s, p, x) && !Shielded(s, p, o) {
      assert Above(s, p, o);
      UnshieldedGone(s, p, o);
      forall b {:trigger Shares(s, b, x)} | b in t.live ensures Shares(s, b, x) == 0 {
        assert b in PlainChunks(t) && b != o;
        assert Holders(s, b, x) == {};
      }
      OrphanPlaced(s, p, t, x);
    } else if o != NULL {
      if Above(s, p, x) { ShieldedKept(s, p, o); } else { AsideKept(s, p, o); }
      assert o in PlainChunks(t);
    }
  }

  lemma {:induction false} ShieldedSorted(s: Forest, t: Forest, p: Ptr, x: Ptr)
    requires WF(s) && WF(t) && t == s.(rank := t.rank)
    ensures Shielded(t, p, x) == Shielded(s, p, x)
    decreases if x in s.live then s.rank[x] else 0
  {
    if x in s.live && s.up[x] != NULL { ShieldedSorted(s, t, p, s.up[x]); }
  }

  lemma HeadIn(xs: seq<Ptr>)
    ensures xs != [] ==> xs[0] in xs
  {
  }

  /** A call without references, on ranks of its own. */
  lemma VetoedOutcome(s: Forest, p: Ptr, ret: int, t: Forest)
    requires WF(s) && s.loose == {} && s.target == map[] && Plain(s, p) && FreeOutcome(s, p, ret, t)
    ensures if p in s.veto then ret == -1 && t == s else ret == 0 && Freed(s, p, t) && WF(t) && t.target == map[]
  {
    hide NoDup, Above;
    HeadIn(s.refs[p]);
    OutcomeFacts(s, p, ret, t);
    assert p !in s.veto ==> HandlesKept(s, t);
  }

  /** talloc_free without references: nothing changes if p's own destructor refuses. Else
      a chunk below p survives exactly if it or a chunk above it, below p, refuses; the
      topmost such become children of p's former parent, every other survivor keeps its
      parent, and every chunk but that parent keeps its children in their order. */
  lemma VetoedFree(s: Forest, p: Ptr, ret: int, t: Forest)
    requires s.loose == {} && s.target == map[] && FreeCall(s, p, ret, t)
    ensures p in s.veto ==> ret == -1 && t.(rank := s.rank) == s
    ensures p !in s.veto ==>
      && ret == 0 && WF(t) && t.live <= s.live && t.loose == {} && t.target == map[]
      && (forall x | x in s.live :: x in t.live <==> !Above(s, p, x) || Shielded(s, p, x))
      && (forall x | x in t.live :: t.up[x] == if Above(s, p, x) && !Shielded(s, p, s.up[x]) then s.up[p] else s.up[x])
      && (forall o | o in t.live && o != s.up[p] :: t.kids[o] == s.kids[o])
  {
    hide NoDup, TreeWF, RefsWF, FreeOutcome, Above, Shielded, Freed;
    var r := RankedAs(s, t);
    VetoedOutcome(r, p, ret, t);
    if p !in s.veto {
      FreedFewer(r, p, t);
      forall x | x in s.live
        ensures x in t.live <==> !Above(s, p, x) || Shielded(s, p, x)
        ensures x in t.live ==> t.up[x] == if Above(s, p, x) && !Shielded(s, p, s.up[x]) then s.up[p] else s.up[x]
      {
        VetoedSurvives(r, p, t, x);
        AboveSorted(s, r, p, x);
        ShieldedSorted(s, r, p, x);
        ShieldedSorted(s, r, p, s.up[x]);
      }
    }
  }

  lemma FreedFewer(s: Forest, p: Ptr, t: Forest)
    requires WF(s) && s.loose == {} && s.target == map[] && p in s.live && Freed(s, p, t)
    ensures t.live <= s.live && t.loose == {}
    ensures forall o {:trigger t.kids[o]} | o in t.live && o != s.up[p] :: t.kids[o] == s.kids[o]
  {
    hide TreeWF, RefsWF;
  }

  // ----- removing one owner

  /** The latest of the handles hs that hangs off o, or NULL. */
  ghost function FirstHeld(s: Forest, o: Ptr, hs: seq<Ptr>): Ptr {
    if hs == [] then NULL
    else if hs[0] in s.up && s.up[hs[0]] == o then hs[0]
    else FirstHeld(s, o, hs[1..])
  }

  lemma {:induction false} FirstHeldFacts(s: Forest, o: Ptr, hs: seq<Ptr>)
    requires NULL !in hs && forall h | h in hs :: h in s.up
    ensures var h := FirstHeld(s, o, hs); if h == NULL then forall g | g in hs :: s.up[g] != o else h in hs && s.up[h] == o
  {
    if hs != [] { FirstHeldFacts(s, o, hs[1..]); }
  }

  /** The least index from n on of a handle that hangs off o. */
  ghost function FirstOf(s: Forest, o: Ptr, hs: seq<Ptr>, n: nat): (i: nat)
    requires n <= |hs|
    ensures n <= i <= |hs| && (forall j | n <= j < i :: !(hs[j] in s.up && s.up[hs[j]] == o))
    ensures i < |hs| ==> hs[i] in s.up && s.up[hs[i]] == o
    decreases |hs| - n
  {
    if n == |hs| || (hs[n] in s.up && s.up[hs[n]] == o) then n else FirstOf(s, o, hs, n + 1)
  }

  /** It is the one of least index. */
  lemma {:induction false} FirstHeldAt(s: Forest, o: Ptr, hs: seq<Ptr>, i: nat)
    requires i <= |hs| && forall j | 0 <= j < i :: !(hs[j] in s.up && s.up[hs[j]] == o)
    requires i < |hs| ==> hs[i] in s.up && s.up[hs[i]] == o
    ensures FirstHeld(s, o, hs) == if i < |hs| then hs[i] else NULL
  {
    if i > 0 {
      forall j | 0 <= j < i - 1 ensures !(hs[1..][j] in s.up && s.up[hs[1..][j]] == o) {
        assert hs[1..][j] == hs[j + 1];
      }
      assert !(hs[0] in s.up && s.up[hs[0]] == o);
      FirstHeldAt(s, o, hs[1..], i - 1);
    }
  }

  /** The forest without the i-th reference to p. */
  lemma HandleAtIndex(s: Forest, p: Ptr, i: nat)
    requires WF(s) && Plain(s, p) && i < |s.refs[p]|
    ensures var h, hs := s.refs[p][i], s.refs[p];
      && h in s.target && s.target[h] == p && h in s.up && h in s.live && (s.up[h] != NULL ==> s.up[h] in s.kids)
      && var u := FreeHandle(s, h);
        && u.live == s.live - {h} && u.up == s.up && u.refs == s.refs[p := hs[..i] + hs[i + 1..]]
        && u.target == s.target - {h} && u.veto == s.veto && u.size == s.size
        && u.kids == if s.up[h] == NULL then s.kids else s.kids[s.up[h] := Without(s.kids[s.up[h]], h)]
  {
    hide Without;
    assert s.refs[p][i] in s.refs[p];
    WithoutAt(s.refs[p], s.refs[p][i], i);
  }

  /** p has a handle that hangs off o exactly if one is found. */
  lemma HeldIffFound(s: Forest, o: Ptr, p: Ptr)
    requires WF(s) && p in s.live
    ensures var h := FirstHeld(s, o, s.refs[p]); if h == NULL then Holders(s, o, p) == {} else Holds(s, o, h, p) && h in s.live
  {
    assert forall h | h in s.refs[p] :: h in s.target && h in s.up;
    FirstHeldFacts(s, o, s.refs[p]);
    assert forall g | Holds(s, o, g, p) :: g in s.refs[p];
  }

  /** t is s without the ownership of p by o: every other share is what it was and
      one handle is gone. */
  ghost predicate OneOwnerLess(s: Forest, o: Ptr, p: Ptr, t: Forest) {
    && (exists h :: h in s.target && s.target[h] == p && t.live == s.live - {h} && t.target == s.target - {h})
    && forall b, x {:trigger Shares(t, b, x)} | x in t.live && x !in t.target ::
         Shares(t, b, x) == Shares(s, b, x) - (if b == o && x == p then 1 else 0)
  }

  lemma HandleOwnerLess(s: Forest, h: Ptr)
    requires WF(s) && h in s.target
    ensures OneOwnerLess(s, s.up[h], s.target[h], FreeHandle(s, h))
  {
    var t := FreeHandle(s, h);
    hide TreeWF, RefsWF, Shares;
    forall b, x ensures Shares(t, b, x) == Shares(s, b, x) - (if b == s.up[h] && x == s.target[h] then 1 else 0) {
      HandleShares(s, h, b, x);
    }
  }

  /** When the parent leaves, the latest holder becomes the parent. */
  lemma ParentOwnerLess(s: Forest, p: Ptr, h: Ptr)
    requires WF(s) && Plain(s, p) && h in s.target && s.target[h] == p && (s.up[h] != NULL ==> s.up[h] in s.live)
    requires WF(FreeHandle(s, h))
    ensures OneOwnerLess(s, s.up[p], p, Move(FreeHandle(s, h), p, s.up[h]))
  {
    var u := FreeHandle(s, h);
    assert Plain(u, p);
    var t := Move(u, p, s.up[h]);
    hide TreeWF, RefsWF, Shares;
    forall b, x ensures Shares(t, b, x) == Shares(s, b, x) - (if b == s.up[p] && x == p then 1 else 0) {
      HandleShares(s, h, b, x);
      MoveShares(u, p, s.up[h], b, x);
    }
  }

  lemma OwnerLessSame(s: Forest, o: Ptr, p: Ptr, t: Forest, u: Forest)
    requires OneOwnerLess(s, o, p, t) && u.live == t.live && u.up == t.up && u.target == t.target
    ensures OneOwnerLess(s, o, p, u)
  {
    hide Shares;
    forall b, x {:trigger Shares(u, b, x)} | x in u.live && x !in u.target
      ensures Shares(u, b, x) == Shares(s, b, x) - (if b == o && x == p then 1 else 0)
    {
      SharesSame(t, u, b, x);
    }
  }

  /** Dropping a handle puts nothing below anything. */
  lemma {:induction false} AboveFewer(s: Forest, t: Forest, a: Ptr, x: Ptr)
    requires WF(s) && WF(t) && t.live <= s.live && t.up == s.up && Above(t, a, x)
    ensures Above(s, a, x)
    decreases if x in s.live then s.rank[x] else 0
  {
    if a != x { AboveFewer(s, t, a, s.up[x]); }
  }

  /** Who is found to own p, and what is left of it. */
  lemma SharesFound(s: Forest, o: Ptr, p: Ptr)
    requires WF(s) && Plain(s, p)
    ensures Shares(s, o, p) > 0 <==> FirstHeld(s, o, s.refs[p]) != NULL || s.up[p] == o
    ensures s.refs[p] == [] ==> FirstHeld(s, o, s.refs[p]) == NULL
    ensures s.refs[p] != [] ==> var h := s.refs[p][0];
              h in s.target && s.target[h] == p && h in s.live && h != NULL && FirstHeld(s, s.up[h], s.refs[p]) == h &&
              (s.up[h] != NULL ==> Plain(s, s.up[h]))
  {
    HeldIffFound(s, o, p);
    OwnerShares(s, o, p);
    if s.refs[p] != [] {
      assert s.refs[p][0] in s.refs[p];
      var h := s.refs[p][0];
      assert s.up[h] != NULL ==> h in s.kids[s.up[h]];
    }
  }

  /** Every handle is on one reference list, once: that of the live chunk it refers to. */
  lemma HandleOnOneList(s: Forest, h: Ptr)
    requires WF(s) && h in s.target
    ensures s.target[h] in s.live && h in s.live && h in s.refs[s.target[h]]
    ensures forall a, i, j {:trigger s.refs[a][i], s.refs[a][j]} |
              a in s.live && 0 <= i < |s.refs[a]| && 0 <= j < |s.refs[a]| && s.refs[a][i] == h && s.refs[a][j] == h ::
              a == s.target[h] && i == j
  {
    forall a, i, j {:trigger s.refs[a][i], s.refs[a][j]} |
      a in s.live && 0 <= i < |s.refs[a]| && 0 <= j < |s.refs[a]| && s.refs[a][i] == h && s.refs[a][j] == h
      ensures a == s.target[h] && i == j
    {
      assert s.refs[a][i] in s.refs[a];
    }
  }
}
