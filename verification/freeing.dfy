/** How far a free can change a forest. */
module Freeing {
  import opened Forests
  import opened Ownership
  import opened Heirs

  /** The shares of o in x are what they were, or x, whose destructor refuses and
      which has lost all its owners, has been handed to o == q. */
  ghost predicate ShareKept(s: Forest, t: Forest, q: Ptr, o: Ptr, x: Ptr)
    requires Keyed(t) && x in t.live
  {
    || Shares(t, o, x) == Shares(s, o, x)
    || (o == q && x in s.veto && Shares(t, o, x) == 1 && t.up[x] == o && Ownerless(s, t, x))
  }

  /** None of the chunks that stay in t owns x in s. */
  ghost predicate Ownerless(s: Forest, t: Forest, x: Ptr) {
    forall o {:trigger Shares(s, o, x)} | o in t.live && o !in t.loose :: Shares(s, o, x) == 0
  }

  /** From s to t chunks are freed or handed on, and chunks that nobody else owns
      are handed to q. */
  ghost predicate Progress(s: Forest, t: Forest, q: Ptr)
    requires Keyed(s) && Keyed(t)
  {
    && t.loose == s.loose && t.live <= s.live && t.rank == s.rank && t.veto == s.veto && t.size == s.size
    && HandlesKept(s, t)
    && ParentsKept(s, t, q)
    && PlacesKept(s, t, q)
    && (forall o, x {:trigger ShareKept(s, t, q, o, x)} |
          o in t.live && o !in t.loose && Plain(t, x) && x !in t.loose :: ShareKept(s, t, q, o, x))
    && (s.target == map[] ==> forall o {:trigger t.kids[o]} | o in t.live && o !in t.loose && o != q :: t.kids[o] == s.kids[o])
  }

  /** A chunk whose parent stays, stays with its parent. */
  ghost predicate ParentsKept(s: Forest, t: Forest, q: Ptr)
    requires Keyed(s) && Keyed(t) && t.live <= s.live
  {
    && (forall x {:trigger t.up[x]} | x in t.live && (x in t.loose || s.up[x] == NULL || (s.up[x] in t.live && s.up[x] !in t.loose)) ::
          t.up[x] == s.up[x])
    && (forall x {:trigger t.up[x]} | x in t.live && t.up[x] == NULL :: s.up[x] == NULL || q == NULL)
  }

  lemma ProgressNone(s: Forest, q: Ptr)
    requires WF(s)
    ensures Progress(s, s, q)
  {
    hide PlacesKept;
    PlacesNone(s, q);
  }

  lemma ProgressTrans(s: Forest, t: Forest, u: Forest, q: Ptr)
    requires WF(s) && WF(t) && WF(u) && Progress(s, t, q) && Progress(t, u, q)
    ensures Progress(s, u, q)
  {
    hide TreeWF, RefsWF, PlacesKept;
    PlacesTrans(s, t, u, q);
    assert HandlesKept(s, u);
    assert ParentsKept(s, u, q);
    forall o, x {:trigger ShareKept(s, u, q, o, x)} | o in u.live && o !in u.loose && Plain(u, x) && x !in u.loose
      ensures ShareKept(s, u, q, o, x)
    {
      assert Plain(t, x);
      assert ShareKept(s, t, q, o, x) && ShareKept(t, u, q, o, x);
      if Shares(u, o, x) != Shares(t, o, x) {
        forall b | b in u.live && b !in u.loose ensures Shares(s, b, x) == 0 {
          assert ShareKept(s, t, q, b, x) && Shares(t, b, x) == 0;
        }
      }
    }
  }

  /** What was handed to a chunk that is itself being freed is nobody's gain. */
  lemma ProgressUp(s: Forest, t: Forest, p: Ptr, q: Ptr)
    requires WF(s) && WF(t) && Progress(s, t, p) && p in s.loose
    ensures Progress(s, t, q)
  {
    hide TreeWF, RefsWF, PlacesKept;
    PlacesUp(s, t, p, q);
    assert p != NULL;
    assert ParentsKept(s, t, q);
    forall o, x {:trigger ShareKept(s, t, q, o, x)} | o in t.live && o !in t.loose && Plain(t, x) && x !in t.loose
      ensures ShareKept(s, t, q, o, x)
    {
      assert ShareKept(s, t, p, o, x);
    }
  }

  // ----- the steps

  /** Freeing a handle takes one share from its holder and nothing from others. */
  lemma HandleShares(s: Forest, h: Ptr, o: Ptr, x: Ptr)
    requires WF(s) && h in s.target
    ensures Shares(FreeHandle(s, h), o, x) == Shares(s, o, x) - (if o == s.up[h] && x == s.target[h] then 1 else 0)
  {
    var t := FreeHandle(s, h);
    hide TreeWF, RefsWF;
    assert t.up == s.up && t.target == s.target - {h};
    assert Holders(t, o, x) == Holders(s, o, x) - {h};
    assert h in Holders(s, o, x) <==> o == s.up[h] && x == s.target[h];
  }

  /** Moving a chunk takes one share from its parent and gives one to q. */
  lemma MoveShares(s: Forest, c: Ptr, q: Ptr, o: Ptr, x: Ptr)
    requires WF(s) && Plain(s, c) && (q != NULL ==> q in s.live)
    ensures Shares(Move(s, c, q), o, x) ==
            Shares(s, o, x) + (if x == c then (if o == q then 1 else 0) - (if o == s.up[c] then 1 else 0) else 0)
  {
    var u := Move(s, c, q);
    hide TreeWF, RefsWF;
    assert Holders(u, o, x) == Holders(s, o, x);
  }

  lemma HandleProgress(s: Forest, h: Ptr, q: Ptr)
    requires WF(s) && h in s.target && s.up[h] in s.loose && WF(FreeHandle(s, h))
    ensures Progress(s, FreeHandle(s, h), q)
  {
    var t := FreeHandle(s, h);
    PlacesHandle(s, h, q);
    hide TreeWF, RefsWF, Shares, PlacesKept;
    forall o, x {:trigger ShareKept(s, t, q, o, x)} | o in t.live && o !in t.loose && Plain(t, x) && x !in t.loose
      ensures ShareKept(s, t, q, o, x)
    {
      HandleShares(s, h, o, x);
    }
  }

  /** Dropping a reference and stealing to its holder keeps the holder's shares. */
  lemma PromotedShares(s: Forest, h: Ptr, o: Ptr, x: Ptr)
    requires WF(s) && h in s.target && s.up[h] in s.live && WF(FreeHandle(s, h))
    requires o != s.up[s.target[h]] && s.target[h] !in s.target
    ensures Shares(Move(FreeHandle(s, h), s.target[h], s.up[h]), o, x) == Shares(s, o, x)
  {
    HandleShares(s, h, o, x);
    hide Shares;
    MoveShares(FreeHandle(s, h), s.target[h], s.up[h], o, x);
  }

  lemma PromotedFrame(s: Forest, h: Ptr, q: Ptr)
    requires WF(s) && h in s.target && s.up[s.target[h]] in s.loose && s.up[h] in s.live
    requires s.target[h] !in s.loose && s.target[h] !in s.target
    requires WF(FreeHandle(s, h)) && Keyed(Move(FreeHandle(s, h), s.target[h], s.up[h]))
    ensures var u := Move(FreeHandle(s, h), s.target[h], s.up[h]); HandlesKept(s, u) && ParentsKept(s, u, q)
  {
    hide TreeWF;
  }

  lemma MoveRank(s: Forest, h: Ptr)
    requires WF(s) && h in s.target && s.up[s.target[h]] in s.live + {NULL} && WF(FreeHandle(s, h))
    requires s.target[h] in FreeHandle(s, h).live && s.up[h] in FreeHandle(s, h).live && s.up[s.target[h]] in FreeHandle(s, h).live
    ensures Move(FreeHandle(s, h), s.target[h], s.up[h]).rank == s.rank
  {
  }

  lemma PromotedSame(s: Forest, h: Ptr)
    requires WF(s) && h in s.target && s.up[s.target[h]] in s.live + {NULL} && WF(FreeHandle(s, h))
    requires s.target[h] in FreeHandle(s, h).live && s.up[h] in FreeHandle(s, h).live && s.up[s.target[h]] in FreeHandle(s, h).live
    ensures var u := Move(FreeHandle(s, h), s.target[h], s.up[h]); u.veto == s.veto && u.size == s.size
  {
  }

  lemma PromotedProgress(s: Forest, h: Ptr, q: Ptr)
    requires WF(s) && h in s.target && s.up[s.target[h]] in s.loose && s.up[h] in s.live
    requires s.target[h] !in s.loose && s.target[h] !in s.target && s.refs[s.target[h]] != [] && s.refs[s.target[h]][0] == h
    requires WF(FreeHandle(s, h)) && WF(Move(FreeHandle(s, h), s.target[h], s.up[h]))
    requires s.target[h] in FreeHandle(s, h).live && s.up[h] in FreeHandle(s, h).live
    ensures Progress(s, Move(FreeHandle(s, h), s.target[h], s.up[h]), q)
  {
    hide NoDup, Without, HandlesKept, ParentsKept, PlacesKept, Shares, Ownerless, FreeHandle, Move;
    HandleUp(s, h);
    HandleFields(s, h);
    ParentLive(s, h);
    PromotedFields(s, h);
    MoveRank(s, h);
    PromotedSame(s, h);
    var u := Move(FreeHandle(s, h), s.target[h], s.up[h]);
    PromotedFrame(s, h, q);
    PlacesPromoted(s, h, q);
    forall b, x {:trigger ShareKept(s, u, q, b, x)} | b in u.live && b !in u.loose && Plain(u, x) && x !in u.loose
      ensures ShareKept(s, u, q, b, x)
    {
      PromotedShares(s, h, b, x);
    }
  }

  /** A chunk without references has one owner. */
  lemma LoneShares(s: Forest, c: Ptr)
    requires WF(s) && c in s.live && s.refs[c] == []
    ensures forall b {:trigger Shares(s, b, c)} :: Shares(s, b, c) == if b == s.up[c] then 1 else 0
  {
    forall b ensures Shares(s, b, c) == if b == s.up[c] then 1 else 0 {
      assert Holders(s, b, c) == {};
    }
  }

  lemma BubbledFrame(s: Forest, c: Ptr, q: Ptr)
    requires WF(s) && Plain(s, c) && c !in s.loose && s.up[c] in s.loose
    requires (q != NULL ==> q in s.live) && Keyed(Move(s, c, q))
    ensures HandlesKept(s, Move(s, c, q)) && ParentsKept(s, Move(s, c, q), q)
  {
    hide TreeWF, RefsWF;
  }

  lemma BubbledProgress(s: Forest, c: Ptr, q: Ptr)
    requires WF(s) && Plain(s, c) && c !in s.loose && c in s.veto && s.refs[c] == [] && s.up[c] in s.loose
    requires (q != NULL ==> q in s.live) && WF(Move(s, c, q))
    ensures Progress(s, Move(s, c, q), q)
  {
    var u := Move(s, c, q);
    hide NoDup, TreeWF, RefsWF, Shares, HandlesKept, ParentsKept, PlacesKept;
    LoneShares(s, c);
    BubbledFrame(s, c, q);
    PlacesBubbled(s, c, q);
    forall b, x {:trigger ShareKept(s, u, q, b, x)} | b in u.live && b !in u.loose && Plain(u, x) && x !in u.loose
      ensures ShareKept(s, u, q, b, x)
    {
      MoveShares(s, c, q, b, x);
    }
  }

  // ----- before, during and after

  /** The state between two steps of a free. */
  ghost predicate Steady(s: Forest) {
    WF(s) && Grounded(s) && Ranked(s, NULL) && Unheld(s)
  }

  /** In a heap at rest whatever ranks above p is kept without p. */
  lemma {:induction false} AboveKept(s: Forest, p: Ptr, x: Ptr)
    requires WF(s) && s.loose == {} && Plain(s, x) && (p in s.live ==> s.rank[x] < s.rank[p])
    ensures x in Kept(s, {p})
    decreases s.rank[x]
  {
    if s.up[x] == NULL {
      assert KeptIn(s, {p}, x, 0);
      assert IsKept(s, {p}, x);
    } else {
      var o := s.up[x];
      assert x in s.kids[o];
      AboveKept(s, p, o);
      assert Owns(s, o, x);
      KeptStep(s, {p}, o, x);
    }
  }

  /** In a heap at rest every chunk is kept. */
  lemma AllKept(s: Forest)
    requires WF(s) && s.loose == {}
    ensures forall x | Plain(s, x) :: x in Kept(s, {})
  {
    forall x | Plain(s, x) ensures x in Kept(s, {}) {
      AboveKept(s, NULL, x);
      KeptFewer(s, {NULL}, x);
    }
  }

  lemma KeptFewer(s: Forest, dead: set<Ptr>, x: Ptr)
    requires x in Kept(s, dead)
    ensures x in Kept(s, {})
  {
    var n: nat :| KeptIn(s, dead, x, n);
    KeptTransfer(s, dead, s, {}, x, n);
    assert IsKept(s, {}, x);
  }

  /** The sibling before p, if any, is not a reference handle. */
  ghost predicate TrailClear(s: Forest, p: Ptr)
    requires WF(s) && p in s.live
  {
    s.up[p] != NULL ==>
      forall i {:trigger s.kids[s.up[p]][i]} | 0 < i < |s.kids[s.up[p]]| && s.kids[s.up[p]][i] == p ::
        s.kids[s.up[p]][i - 1] !in s.target
  }

  /** What has a reference without a holder is p or ranks above it. */
  ghost predicate UnheldBefore(s: Forest, p: Ptr)
    requires WF(s) && p in s.live
  {
    forall h {:trigger h in s.target} | h in s.target && s.up[h] == NULL && s.target[h] != p ::
      s.rank[s.target[h]] < s.rank[p]
  }

  /** What p must be like when its free begins: in a heap at rest only p itself may
      be referenced from what it owns. */
  ghost predicate Freeable(s: Forest, p: Ptr) {
    && WF(s) && Plain(s, p) && p !in s.loose && TrailClear(s, p)
    && if s.loose == {} then Ranked(s, p) && UnheldBefore(s, p)
       else s.up[p] in s.loose && Steady(s) && forall d {:trigger d in s.loose} | d in s.loose :: s.rank[d] <= s.rank[s.up[p]]
  }

  /** In a heap at rest a chunk's parent is no handle and nobody traces it. */
  lemma ParentPlain(s: Forest, c: Ptr)
    requires WF(s) && c in s.live && c !in s.loose
    ensures s.up[c] !in s.target && (s.up[c] != NULL ==> s.up[c] in s.live)
  {
    if s.up[c] != NULL { assert c in s.kids[s.up[c]]; }
  }

  lemma NoHandles(s: Forest, p: Ptr)
    requires WF(s) && p in s.live && s.refs[p] == []
    ensures forall h {:trigger h in s.target} | h in s.target :: s.target[h] != p
  {
  }

  lemma ParentBefore(s: Forest, p: Ptr)
    requires WF(s) && p in s.live && p !in s.loose
    ensures s.up[p] != NULL ==> s.up[p] in s.live && s.rank[s.up[p]] < s.rank[p] && Plain(s, s.up[p])
  {
    if s.up[p] != NULL { assert p in s.kids[s.up[p]]; }
  }

  lemma BeginRanked(s: Forest, p: Ptr)
    requires Freeable(s, p) && s.refs[p] == [] && WF(Unlink(s, p))
    requires Kept(Unlink(s, p), s.loose + {p}) == Kept(s, s.loose + {p})
    requires s.up[p] == NULL || s.up[p] in s.loose || s.up[p] in Kept(s, s.loose + {p})
    requires s.loose != {} ==> Kept(s, s.loose + {p}) == Kept(s, s.loose)
    requires s.up[p] in s.loose ==> s.rank[s.up[p]] < s.rank[p]
    requires forall h {:trigger h in s.target} | h in s.target :: s.target[h] != p
    ensures Steady(Unlink(s, p))
  {
    hide NoDup, RefsWF, Kept, TrailClear;
    var t := Unlink(s, p);
    assert Grounded(t);
    assert Ranked(t, NULL);
    assert Unheld(t);
  }

  /** A chunk that only a chunk being freed owns is not kept. */
  lemma NotKept(s: Forest, p: Ptr)
    requires WF(s) && Plain(s, p) && p !in s.veto && s.refs[p] == [] && s.up[p] in s.loose
    ensures p !in Kept(s, s.loose)
  {
    hide NoDup;
    assert forall o, h :: !Holds(s, o, h, p);
    KeptPlain(s, s.loose);
    assert NULL !in s.live;
    if p in Kept(s, s.loose) {
      var o := KeptOwner(s, s.loose, p);
    }
  }

  lemma BeginKept(s: Forest, p: Ptr)
    requires WF(s) && p in s.live
    ensures Kept(Unlink(s, p), s.loose + {p}) == Kept(s, s.loose + {p})
  {
    var t := Unlink(s, p);
    hide TreeWF, RefsWF;
    forall o, y ensures Owns(s, o, y) == Owns(t, o, y) {
      forall h ensures Holds(s, o, h, y) == Holds(t, o, h, y) {}
    }
    KeptSame(s, s.loose + {p}, t, s.loose + {p});
  }

  /** p leaves its list. */
  lemma Begin(s: Forest, p: Ptr)
    requires Freeable(s, p) && s.refs[p] == [] && p !in s.veto
    ensures Steady(Unlink(s, p)) && Kept(Unlink(s, p), s.loose + {p}) == Kept(s, s.loose + {p})
    ensures s.loose != {} ==> p !in Kept(s, s.loose)
  {
    hide NoDup, TreeWF, RefsWF;
    ParentPlain(s, p);
    UnlinkWF(s, p);
    BeginKept(s, p);
    NoHandles(s, p);
    if s.loose == {} {
      assert s.loose + {p} == {p};
      ParentBefore(s, p);
      if s.up[p] != NULL { AboveKept(s, p, s.up[p]); }
    } else {
      NotKept(s, p);
      KeptWithout(s, s.loose, p);
      ParentBefore(s, p);
    }
    BeginRanked(s, p);
  }

  /** p and what only p kept is gone; what p owned alone and refuses to go is with
      p's parent. */
  ghost predicate Freed(s: Forest, p: Ptr, t: Forest)
    requires Keyed(s) && p in s.live
  {
    && Steady(t) && p !in t.live
    && Progress(s, t, s.up[p])
    && Kept(t, t.loose) == Kept(s, s.loose + {p})
  }

  /** s is between two rounds of emptying p, which began in s1. */
  ghost predicate Emptying(s1: Forest, s: Forest, p: Ptr)
    requires Keyed(s1) && p in s1.live
  {
    && Steady(s) && p in s.loose
    && Progress(s1, s, s1.up[p])
    && Kept(s, s.loose) == Kept(s1, s1.loose)
    && forall d {:trigger d in s.loose} | d in s.loose :: s.rank[d] <= s.rank[p]
  }

  lemma BeginEmptying(s: Forest, p: Ptr)
    requires Freeable(s, p) && s.refs[p] == [] && p !in s.veto
    ensures p in Unlink(s, p).live && Emptying(Unlink(s, p), Unlink(s, p), p)
  {
    Begin(s, p);
    ProgressNone(Unlink(s, p), s.up[p]);
    hide Progress, RefsWF;
  }

  lemma EmptyingStep(s1: Forest, s: Forest, p: Ptr, t: Forest)
    requires WF(s1) && p in s1.live && Emptying(s1, s, p)
    requires WF(t) && Ranked(t, NULL) && Kept(t, t.loose) == Kept(s, s.loose)
    requires forall d | d in t.loose :: t.refs[d] == []
    requires Progress(s, t, p) || Progress(s, t, s1.up[p])
    ensures Emptying(s1, t, p)
  {
    hide NoDup, TreeWF, RefsWF, Ranked, ShareKept;
    if !Progress(s, t, s1.up[p]) { ProgressUp(s, t, p, s1.up[p]); }
    ProgressTrans(s1, s, t, s1.up[p]);
    assert Keyed(s) && Keyed(t);
    assert HandlesKept(s, t) && ParentsKept(s, t, s1.up[p]);
    assert Grounded(t);
  }

  /** A child that is a reference handle is freed. */
  lemma EmptyHandle(s1: Forest, s: Forest, p: Ptr, h: Ptr)
    requires WF(s1) && p in s1.live && Emptying(s1, s, p)
    requires h in s.target && s.up[h] == p
    ensures Emptying(s1, FreeHandle(s, h), p)
  {
    FreeHandleWF(s, h);
    HandleGone(s, h);
    HandleProgress(s, h, p);
    hide TreeWF, RefsWF, Progress;
    EmptyingStep(s1, s, p, FreeHandle(s, h));
  }

  /** A child whose destructor refuses goes to the parent of p. */
  lemma EmptyBubbled(s1: Forest, s: Forest, p: Ptr, c: Ptr)
    requires WF(s1) && p in s1.live && Emptying(s1, s, p)
    requires Plain(s, c) && c !in s.loose && c in s.veto && s.refs[c] == [] && s.up[c] == p
    ensures Emptying(s1, Move(s, c, s.up[p]), p)
  {
    var q := s.up[p];
    assert c in s.kids[p] && p !in s.target && q !in s.target;
    assert q == s1.up[p];
    MoveWF(s, c, q);
    Bubbled(s, c, q);
    BubbledProgress(s, c, q);
    hide TreeWF, RefsWF, Progress;
    EmptyingStep(s1, s, p, Move(s, c, q));
  }

  lemma ChildFreeable(s1: Forest, s: Forest, p: Ptr, c: Ptr)
    requires WF(s1) && p in s1.live && Emptying(s1, s, p)
    requires Plain(s, c) && s.kids[p] != [] && s.kids[p][0] == c
    ensures Freeable(s, c) && c !in s.loose && s.up[c] == p
  {
    hide RefsWF, Progress, Kept, Grounded, Ranked;
    assert c in s.kids[p];
  }

  /** A child is freed with all that only it kept. */
  lemma EmptyFreed(s1: Forest, s: Forest, p: Ptr, c: Ptr, t: Forest)
    requires WF(s1) && p in s1.live && Emptying(s1, s, p)
    requires Freeable(s, c) && s.up[c] == p && s.refs[c] == [] && c !in s.veto
    requires Freed(s, c, t)
    ensures Emptying(s1, t, p) && t.live < s.live
  {
    assert c in s.live && c !in t.live;
    Begin(s, c);
    KeptWithout(s, s.loose, c);
    hide TreeWF, RefsWF, Progress;
    EmptyingStep(s1, s, p, t);
  }

  lemma FinishSteady(e: Forest, p: Ptr)
    requires Steady(e) && p in e.loose && e.kids[p] == []
    requires forall d | d in e.loose :: e.rank[d] <= e.rank[p]
    ensures Steady(Remove(e, p)) && Kept(Remove(e, p), e.loose - {p}) == Kept(e, e.loose)
  {
    hide NoDup;
    assert forall d | d in e.live :: e.up[d] != p;
    RemoveWF(e, p);
    FinishKept(e, p);
    hide TreeWF, RefsWF;
    assert Grounded(Remove(e, p));
  }

  /** p is empty and its memory is given back. */
  lemma Finish(s: Forest, p: Ptr, e: Forest)
    requires Freeable(s, p) && s.refs[p] == [] && p !in s.veto
    requires WF(Unlink(s, p)) && Emptying(Unlink(s, p), e, p) && e.kids[p] == []
    ensures Freed(s, p, Remove(e, p))
  {
    assert e.loose - {p} == s.loose;
    FinishSteady(e, p);
    Begin(s, p);
    FinishProgress(s, p, e);
  }

  lemma FinishKept(e: Forest, p: Ptr)
    requires WF(e) && p in e.loose
    ensures Kept(Remove(e, p), e.loose - {p}) == Kept(e, e.loose)
  {
    var t := Remove(e, p);
    hide TreeWF, RefsWF;
    forall o, y ensures Owns(e, o, y) == Owns(t, o, y) {
      forall h ensures Holds(e, o, h, y) == Holds(t, o, h, y) {}
    }
    KeptSame(e, e.loose, t, e.loose - {p});
  }

  /** Shares only depend on parents and handles. */
  lemma SharesSame(s: Forest, t: Forest, o: Ptr, x: Ptr)
    requires s.up == t.up && s.target == t.target
    ensures Shares(s, o, x) == Shares(t, o, x)
  {
    assert Holders(s, o, x) == Holders(t, o, x);
  }

  lemma FinishShare(s: Forest, p: Ptr, e: Forest, o: Ptr, x: Ptr)
    requires WF(s) && p in s.live && Keyed(e) && Keyed(Remove(e, p))
    requires x in e.live && x != p && ShareKept(Unlink(s, p), e, s.up[p], o, x)
    ensures ShareKept(s, Remove(e, p), s.up[p], o, x)
  {
    var s1, t := Unlink(s, p), Remove(e, p);
    hide TreeWF, RefsWF, Shares;
    SharesSame(s1, s, o, x);
    SharesSame(t, e, o, x);
    forall b | b in t.live && b !in t.loose ensures Shares(s1, b, x) == Shares(s, b, x) {
      SharesSame(s1, s, b, x);
    }
  }

  lemma FinishFrame(s: Forest, p: Ptr, e: Forest)
    requires WF(s) && Plain(s, p) && p !in s.loose && Keyed(Unlink(s, p)) && Keyed(e) && p in e.loose
    requires Progress(Unlink(s, p), e, s.up[p])
    ensures Keyed(Remove(e, p)) && HandlesKept(s, Remove(e, p)) && ParentsKept(s, Remove(e, p), s.up[p])
  {
    hide TreeWF, RefsWF, ShareKept;
  }

  lemma FinishProgress(s: Forest, p: Ptr, e: Forest)
    requires WF(s) && Plain(s, p) && p !in s.loose && WF(Unlink(s, p)) && WF(e) && p in e.loose
    requires Progress(Unlink(s, p), e, s.up[p])
    ensures Progress(s, Remove(e, p), s.up[p])
  {
    hide NoDup, Without, RefsWF, HandlesKept, ParentsKept, PlacesKept, Shares, Ownerless;
    var s1, t, q := Unlink(s, p), Remove(e, p), s.up[p];
    FinishFrame(s, p, e);
    PlacesFinish(s, p, e, q);
    forall o, x {:trigger ShareKept(s, t, q, o, x)} | o in t.live && o !in t.loose && Plain(t, x) && x !in t.loose
      ensures ShareKept(s, t, q, o, x)
    {
      assert ShareKept(s1, e, q, o, x);
      FinishShare(s, p, e, o, x);
    }
  }

  // ----- the outcome of a free

  /** a is x, or the parent of x, or the parent of that, and so on. */
  ghost predicate Above(s: Forest, a: Ptr, x: Ptr)
    requires WF(s)
    decreases if x in s.live then s.rank[x] else 0
  {
    x in s.live && (a == x || (s.up[x] != NULL && Above(s, a, s.up[x])))
  }

  /** p's latest references are dropped for as long as they come from below p. */
  ghost function Shed(s: Forest, p: Ptr): Forest
    requires WF(s) && Plain(s, p)
    decreases |s.refs[p]|
  {
    if s.refs[p] == [] || !Above(s, p, s.refs[p][0]) then s
    else
      var h := s.refs[p][0];
      assert h in s.refs[p];
      FreeHandleWF(s, h);
      WithoutFacts(s.refs[p], h);
      Shed(FreeHandle(s, h), p)
  }

  /** What _talloc_free(p) does: if a reference from elsewhere is left, only the
      latest one goes; else, unless p's destructor refuses, p goes. */
  ghost predicate FreeOutcome(s: Forest, p: Ptr, ret: int, t: Forest)
    requires WF(s) && Plain(s, p)
  {
    var u := Shed(s, p);
    ShedFacts(s, p);
    if u.refs[p] != [] then ret == -1 && u.refs[p][0] in u.target && t == FreeHandle(u, u.refs[p][0])
    else if p in u.veto then ret == -1 && t == u
    else ret == 0 && Freed(u, p, t)
  }

  lemma {:induction false} ShedFacts(s: Forest, p: Ptr)
    requires WF(s) && Plain(s, p)
    ensures var u := Shed(s, p); WF(u) && Plain(u, p) && u.loose == s.loose && u.up == s.up && u.veto == s.veto && u.rank == s.rank
    ensures var u := Shed(s, p); u.refs[p] != [] ==> u.refs[p][0] in u.target && !Above(u, p, u.refs[p][0])
    ensures var u := Shed(s, p); u.live <= s.live && u.target.Keys <= s.target.Keys && forall h | h in u.target :: u.target[h] == s.target[h]
    decreases |s.refs[p]|
  {
    if s.refs[p] != [] {
      var h := s.refs[p][0];
      assert h in s.refs[p];
      if Above(s, p, h) {
        FreeHandleWF(s, h);
        WithoutFacts(s.refs[p], h);
        ShedFacts(FreeHandle(s, h), p);
      }
    }
  }

  lemma {:induction false} AboveRank(s: Forest, a: Ptr, x: Ptr)
    requires WF(s) && Above(s, a, x)
    ensures a in s.live && s.rank[a] <= s.rank[x]
    decreases s.rank[x]
  {
    if a != x { AboveRank(s, a, s.up[x]); }
  }

  /** While a free is under way no chunk is referenced from below itself. */
  lemma NotInside(s: Forest, p: Ptr)
    requires WF(s) && Ranked(s, NULL) && Plain(s, p)
    ensures Shed(s, p) == s
  {
    if s.refs[p] != [] {
      var h := s.refs[p][0];
      assert h in s.refs[p];
      if Above(s, p, h) { AboveRank(s, p, s.up[h]); }
    }
  }

  /** Dropping a reference to p leaves p freeable. */
  lemma StillFreeable(s: Forest, p: Ptr, h: Ptr)
    requires Freeable(s, p) && s.loose == {} && h in s.target
    ensures Freeable(FreeHandle(s, h), p)
  {
    hide NoDup, Without, TreeWF;
    FreeHandleWF(s, h);
    HandleTrail(s, p, h);
  }

  lemma HandleTrail(s: Forest, p: Ptr, h: Ptr)
    requires WF(s) && Plain(s, p) && p !in s.loose && h in s.target && WF(FreeHandle(s, h)) && TrailClear(s, p)
    ensures p in FreeHandle(s, h).live && TrailClear(FreeHandle(s, h), p)
  {
    hide NoDup, Without;
    var q, t := s.up[p], FreeHandle(s, h);
    if q != NULL && q == s.up[h] {
      forall i {:trigger t.kids[q][i]} | 0 < i < |t.kids[q]| && t.kids[q][i] == p ensures t.kids[q][i - 1] !in t.target {
        var o := WithoutNeighbours(s.kids[q], h, i);
      }
    }
  }

  /** A free of a referenced chunk begins with its latest reference. */
  lemma LatestReference(s: Forest, p: Ptr)
    requires Freeable(s, p) && s.refs[p] != []
    ensures var h := s.refs[p][0]; h in s.target && s.target[h] == p
    ensures var h := s.refs[p][0]; if Above(s, p, h) then Freeable(FreeHandle(s, h), p) else FreeOutcome(s, p, -1, FreeHandle(s, h))
  {
    var h := s.refs[p][0];
    assert h in s.refs[p];
    if Above(s, p, h) {
      if s.loose == {} {
        StillFreeable(s, p, h);
      } else {
        AboveRank(s, p, s.up[h]);
      }
    }
  }

  lemma LatestReferenceInside(s: Forest, p: Ptr, ret: int, t: Forest)
    requires WF(s) && Plain(s, p) && s.refs[p] != []
    requires var h := s.refs[p][0]; h in s.target && Above(s, p, h) && WF(FreeHandle(s, h)) && Plain(FreeHandle(s, h), p)
    requires FreeOutcome(FreeHandle(s, s.refs[p][0]), p, ret, t)
    ensures FreeOutcome(s, p, ret, t)
  {
    assert Shed(s, p) == Shed(FreeHandle(s, s.refs[p][0]), p);
  }

  /** A free of an unreferenced chunk that refuses, or that does not. */
  lemma OutcomeUnreferenced(s: Forest, p: Ptr, ret: int, t: Forest)
    requires WF(s) && Plain(s, p) && s.refs[p] == []
    requires if p in s.veto then ret == -1 && t == s else ret == 0 && Freed(s, p, t)
    ensures FreeOutcome(s, p, ret, t)
  {
  }

  lemma OutcomeEmptied(s: Forest, p: Ptr, e: Forest)
    requires Freeable(s, p) && s.refs[p] == [] && p !in s.veto
    requires p in Unlink(s, p).live && Emptying(Unlink(s, p), e, p) && e.kids[p] == []
    ensures WF(Remove(e, p)) && p !in e.target && e.refs[p] == []
    ensures FreeOutcome(s, p, 0, Remove(e, p))
  {
    Begin(s, p);
    Finish(s, p, e);
  }

  /** c can become a child of q, or go to top level. */
  ghost predicate Movable(s: Forest, c: Ptr, q: Ptr)
    requires WF(s)
  {
    && c in s.live && c !in s.loose && c !in s.target && s.up[c] !in s.target
    && (q != NULL && q != c ==> q in s.live && q !in s.target && s.rank[q] < s.rank[c])
  }

  /** No chunk being freed lies below c's parent. */
  ghost predicate Deepest(s: Forest, c: Ptr)
    requires WF(s)
  {
    c in s.live && c !in s.loose && s.up[c] in s.live &&
    forall d {:trigger d in s.loose} | d in s.loose :: s.rank[d] <= s.rank[s.up[c]]
  }

  /** The holder of the latest reference to a child of p. */
  lemma LatestHolder(s: Forest, p: Ptr, c: Ptr)
    requires WF(s) && Ranked(s, NULL) && Unheld(s) && p in s.loose
    requires Plain(s, c) && c !in s.loose && s.up[c] == p && s.refs[c] != []
    ensures p != NULL && p in s.live && s.rank[p] < s.rank[c]
    ensures var h := s.refs[c][0];
      && h in s.target && s.target[h] == c && h != c && h in s.live && h in s.up
      && s.up[h] in s.live && s.up[h] in s.kids && s.up[h] != c && s.up[h] != h && s.up[h] !in s.target && p !in s.target
      && s.rank[s.up[h]] < s.rank[c]
      && WF(FreeHandle(s, h))
  {
    hide NoDup;
    var h := s.refs[c][0];
    assert h in s.refs[c];
    FreeHandleWF(s, h);
    assert c in s.kids[p] && (s.up[h] != NULL ==> h in s.kids[s.up[h]]);
  }

  /** A referenced child c of p can go to the holder of its latest reference h. */
  lemma HandOn(s1: Forest, s: Forest, p: Ptr, c: Ptr)
    requires WF(s1) && p in s1.live && Emptying(s1, s, p)
    requires Plain(s, c) && c !in s.loose && s.up[c] == p && s.refs[c] != []
    ensures var h := s.refs[c][0];
            && h in s.target && s.target[h] == c && h != c && WF(FreeHandle(s, h))
            && s.up[h] in s.live && s.up[h] != NULL && s.up[h] != c && s.up[h] != h
            && Movable(FreeHandle(s, h), c, s.up[h]) && Deepest(FreeHandle(s, h), c)
            && FreeHandle(s, h).live < s.live
  {
    hide NoDup, TreeWF, RefsWF, Progress, Kept, Grounded;
    LatestHolder(s, p, c);
  }

  lemma NoneRefer(s: Forest)
    requires WF(s) && Grounded(s)
    ensures forall d {:trigger d in s.loose} | d in s.loose :: s.refs[d] == []
  {
  }

  /** Handing on changes no ranks, and lists of references only shrink. */
  lemma RankedAfter(s: Forest, h: Ptr)
    requires WF(s) && Ranked(s, NULL) && h in s.target && s.target[h] !in s.loose && s.up[s.target[h]] in s.loose
    requires WF(FreeHandle(s, h)) && s.target[h] in FreeHandle(s, h).live && s.up[h] in FreeHandle(s, h).live
    requires s.target[h] !in s.target && WF(Move(FreeHandle(s, h), s.target[h], s.up[h]))
    requires forall d {:trigger d in s.loose} | d in s.loose :: s.refs[d] == []
    ensures var u := Move(FreeHandle(s, h), s.target[h], s.up[h]);
      u.loose == s.loose && Ranked(u, NULL) && forall d | d in u.loose :: u.refs[d] == []
  {
    hide NoDup, TreeWF, RefsWF, FreeHandle, Move;
    HandleUp(s, h);
    HandleFields(s, h);
    ParentLive(s, h);
    PromotedFields(s, h);
    MoveRank(s, h);
  }

  /** A referenced child goes to the holder of its latest reference. */
  lemma EmptyPromoted(s1: Forest, s: Forest, p: Ptr, c: Ptr)
    requires WF(s1) && p in s1.live && Emptying(s1, s, p)
    requires Plain(s, c) && c !in s.loose && s.up[c] == p && s.refs[c] != []
    ensures var h := s.refs[c][0];
      && h in s.target && s.target[h] == c && WF(FreeHandle(s, h)) && s.up[h] in s.live && c in FreeHandle(s, h).live
      && Emptying(s1, Move(FreeHandle(s, h), c, s.up[h]), p)
  {
    hide NoDup, TreeWF, RefsWF, Progress, Kept, Grounded, Ranked, Unheld, FreeHandle, Move;
    var h := s.refs[c][0];
    HandOn(s1, s, p, c);
    MoveWF(FreeHandle(s, h), c, s.up[h]);
    Promoted(s, h);
    PromotedProgress(s, h, p);
    NoneRefer(s);
    RankedAfter(s, h);
    EmptyingStep(s1, s, p, Move(FreeHandle(s, h), c, s.up[h]));
  }

  /** A child c of p whose destructor refuses can go to the parent of p. */
  lemma HandUp(s1: Forest, s: Forest, p: Ptr, c: Ptr)
    requires WF(s1) && p in s1.live && Emptying(s1, s, p)
    requires Plain(s, c) && c !in s.loose && s.up[c] == p
    ensures Movable(s, c, s.up[p]) && Deepest(s, c) && s.up[p] != c && s.up[p] != p && p in s.live
    ensures Move(s, c, s.up[p]).live == s.live && |Move(s, c, s.up[p]).kids[p]| < |s.kids[p]|
  {
    assert c in s.kids[p];
    WithoutFacts(s.kids[p], c);
  }

  /** A free that succeeds found no references, no refusal, and leaves no chunk. */
  lemma OutcomeGone(s: Forest, p: Ptr, t: Forest)
    requires WF(s) && Plain(s, p) && Shed(s, p) == s && FreeOutcome(s, p, 0, t)
    ensures s.refs[p] == [] && p !in s.veto && p !in t.live
  {
  }

  lemma OutcomeFacts(s: Forest, p: Ptr, ret: int, t: Forest)
    requires WF(s) && Plain(s, p) && s.refs[p] == [] && FreeOutcome(s, p, ret, t)
    ensures if p in s.veto then ret == -1 && t == s else ret == 0 && Freed(s, p, t)
  {
  }

  /** The holder of a handle outlives it, and is no handle. */
  lemma HolderStays(s: Forest, h: Ptr)
    requires WF(s) && h in s.target
    ensures s.up[h] != h && s.target[h] != h && (s.up[h] != NULL ==> Plain(s, s.up[h]) && Plain(FreeHandle(s, h), s.up[h]))
  {
    if s.up[h] != NULL { assert h in s.kids[s.up[h]]; }
  }
}
