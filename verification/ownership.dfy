/** Who keeps a chunk alive: the ownership graph of a forest with reference
    handles, and what the steps of a free do to it. */
module Ownership {
  import opened Forests

  // ----- the ownership graph

  /** o owns x: as its parent, or through a reference handle among o's children. */
  ghost predicate Owns(s: Forest, o: Ptr, x: Ptr) {
    x in s.up && (s.up[x] == o || exists h :: Holds(s, o, h, x))
  }

  /** Handle h hangs off o and refers to x. */
  ghost predicate Holds(s: Forest, o: Ptr, h: Ptr, x: Ptr) {
    h in s.target && s.target[h] == x && h in s.up && s.up[h] == o
  }

  ghost function Holders(s: Forest, o: Ptr, x: Ptr): set<Ptr> {
    set h | h in s.target && Holds(s, o, h, x)
  }

  /** How many times o owns x. With o == NULL: x is at top level, or a handle is. */
  ghost function Shares(s: Forest, o: Ptr, x: Ptr): nat {
    (if x in s.up && s.up[x] == o then 1 else 0) + |Holders(s, o, x)|
  }

  /** A chunk that is not a reference handle. */
  ghost predicate Plain(s: Forest, x: Ptr) {
    x in s.live && x !in s.target
  }

  /** Nothing has to own x: it is at top level or its destructor refuses. */
  ghost predicate Anchor(s: Forest, x: Ptr) {
    x in s.up && (s.up[x] == NULL || x in s.veto)
  }

  /** x is reached from an anchor in at most n ownership steps that avoid `dead`. */
  ghost predicate KeptIn(s: Forest, dead: set<Ptr>, x: Ptr, n: nat)
    decreases n
  {
    && Plain(s, x) && x !in dead
    && (Anchor(s, x) || (n > 0 && exists o :: o in s.live && Owns(s, o, x) && KeptIn(s, dead, o, n - 1)))
  }

  ghost predicate IsKept(s: Forest, dead: set<Ptr>, x: Ptr) {
    exists n: nat :: KeptIn(s, dead, x, n)
  }

  /** The chunks that stay reachable when `dead` are taken out of the graph. */
  ghost function Kept(s: Forest, dead: set<Ptr>): set<Ptr> {
    set x | x in s.live && IsKept(s, dead, x)
  }

  // ----- reachability in one graph and in another

  /** Reachability only depends on which edges lead to chunks that need one. */
  lemma {:induction false} KeptTransfer(s: Forest, dead: set<Ptr>, t: Forest, dead': set<Ptr>, x: Ptr, n: nat)
    requires KeptIn(s, dead, x, n)
    requires forall y {:trigger Plain(s, y)} | Plain(s, y) && y !in dead && IsKept(s, dead, y) :: Plain(t, y) && y !in dead'
    requires forall y {:trigger Anchor(s, y)} | Plain(s, y) && y !in dead && Anchor(s, y) :: Anchor(t, y)
    requires forall o, y {:trigger Owns(s, o, y)} |
               Plain(s, o) && o !in dead && Plain(s, y) && y !in dead && !Anchor(s, y) && Owns(s, o, y) :: Owns(t, o, y)
    ensures KeptIn(t, dead', x, n)
    decreases n
  {
    assert IsKept(s, dead, x);
    if !Anchor(s, x) {
      var o :| o in s.live && Owns(s, o, x) && KeptIn(s, dead, o, n - 1);
      KeptTransfer(s, dead, t, dead', o, n - 1);
      assert o in t.live;
    }
  }

  lemma KeptPlain(s: Forest, dead: set<Ptr>)
    ensures forall x {:trigger x in Kept(s, dead)} | x in Kept(s, dead) :: Plain(s, x) && x !in dead
  {
    forall x {:trigger x in Kept(s, dead)} | x in Kept(s, dead) ensures Plain(s, x) && x !in dead {
      var n: nat :| KeptIn(s, dead, x, n);
    }
  }

  /** What a kept chunk owns is kept. */
  lemma KeptStep(s: Forest, dead: set<Ptr>, o: Ptr, x: Ptr)
    requires o in Kept(s, dead) && Owns(s, o, x) && Plain(s, x) && x !in dead
    ensures x in Kept(s, dead)
  {
    var n: nat :| KeptIn(s, dead, o, n);
    assert KeptIn(s, dead, x, n + 1);
  }

  /** A chunk that is no anchor is kept through an owner. */
  lemma KeptOwner(s: Forest, dead: set<Ptr>, x: Ptr) returns (o: Ptr)
    requires x in Kept(s, dead) && !Anchor(s, x)
    ensures o in Kept(s, dead) && Owns(s, o, x)
  {
    var n: nat :| KeptIn(s, dead, x, n);
    o :| o in s.live && Owns(s, o, x) && KeptIn(s, dead, o, n - 1);
    assert IsKept(s, dead, o);
  }

  /** Two graphs that agree on the edges that matter keep the same chunks. */
  lemma KeptSame(s: Forest, dead: set<Ptr>, t: Forest, dead': set<Ptr>)
    requires forall y {:trigger Plain(s, y)} {:trigger Plain(t, y)} :: Plain(s, y) && y !in dead <==> Plain(t, y) && y !in dead'
    requires forall y {:trigger Anchor(s, y)} {:trigger Anchor(t, y)} | Plain(s, y) && y !in dead :: Anchor(s, y) == Anchor(t, y)
    requires forall o, y {:trigger Owns(s, o, y)} {:trigger Owns(t, o, y)} |
               Plain(s, o) && o !in dead && Plain(s, y) && y !in dead && !Anchor(s, y) :: Owns(s, o, y) == Owns(t, o, y)
    ensures Kept(s, dead) == Kept(t, dead')
  {
    forall x ensures x in Kept(s, dead) <==> x in Kept(t, dead') {
      if x in Kept(s, dead) {
        var n: nat :| KeptIn(s, dead, x, n);
        KeptTransfer(s, dead, t, dead', x, n);
        assert IsKept(t, dead', x) && Plain(t, x);
      }
      if x in Kept(t, dead') {
        var n: nat :| KeptIn(t, dead', x, n);
        KeptTransfer(t, dead', s, dead, x, n);
        assert IsKept(s, dead, x) && Plain(s, x);
      }
    }
  }

  /** Taking out a chunk that is not reachable anyway changes nothing. */
  lemma KeptWithout(s: Forest, dead: set<Ptr>, c: Ptr)
    requires c !in Kept(s, dead)
    ensures Kept(s, dead + {c}) == Kept(s, dead)
  {
    forall x ensures x in Kept(s, dead) <==> x in Kept(s, dead + {c}) {
      if x in Kept(s, dead) {
        var n: nat :| KeptIn(s, dead, x, n);
        assert forall y | Plain(s, y) && IsKept(s, dead, y) :: y in Kept(s, dead);
        KeptTransfer(s, dead, s, dead + {c}, x, n);
        assert IsKept(s, dead + {c}, x);
      }
      if x in Kept(s, dead + {c}) {
        var n: nat :| KeptIn(s, dead + {c}, x, n);
        KeptTransfer(s, dead + {c}, s, dead, x, n);
        assert IsKept(s, dead, x);
      }
    }
  }

  // ----- a free under way

  /** The holder of a handle ranks above what the handle refers to, unless that is
      `ex`. */
  ghost predicate Ranked(s: Forest, ex: Ptr)
    requires WF(s)
  {
    forall h {:trigger h in s.target} | h in s.target && s.up[h] != NULL && s.target[h] != ex ::
      s.rank[s.up[h]] < s.rank[s.target[h]]
  }

  /** What has a reference without a holder ranks above all chunks being freed. */
  ghost predicate Unheld(s: Forest)
    requires WF(s)
  {
    forall h, d {:trigger h in s.target, d in s.loose} | h in s.target && s.up[h] == NULL && d in s.loose ::
      s.rank[s.target[h]] < s.rank[d]
  }

  /** A chunk being freed is not referenced, and its former parent is also being
      freed, or stays. */
  ghost predicate Grounded(s: Forest)
    requires WF(s)
  {
    forall d {:trigger d in s.loose} | d in s.loose ::
      s.refs[d] == [] && (s.up[d] == NULL || s.up[d] in s.loose || s.up[d] in Kept(s, s.loose))
  }

  /** A handle of a chunk being freed goes: nobody else notices. */
  lemma HandleGone(s: Forest, h: Ptr)
    requires WF(s) && h in s.target && s.up[h] in s.loose
    ensures Kept(FreeHandle(s, h), s.loose) == Kept(s, s.loose)
  {
    var t := FreeHandle(s, h);
    hide WF;
    forall o, y | Plain(s, o) && o !in s.loose ensures Owns(s, o, y) == Owns(t, o, y) {
      forall g ensures Holds(s, o, g, y) == Holds(t, o, g, y) {}
    }
    KeptSame(s, s.loose, t, s.loose);
  }

  /** An abandoned child c loses its latest reference h and becomes a child of
      the holder. */
  lemma Promoted(s: Forest, h: Ptr)
    requires WF(s) && h in s.target && s.up[s.target[h]] in s.loose && s.up[h] in s.live
    requires s.target[h] !in s.loose && s.target[h] !in s.target
    ensures var t := FreeHandle(s, h); WF(t) && Kept(Move(t, s.target[h], s.up[h]), s.loose) == Kept(s, s.loose)
  {
    hide WF;
    FreeHandleWF(s, h);
    PromotedMove(s, h);
    var u := Move(FreeHandle(s, h), s.target[h], s.up[h]);
    forall b, y | Plain(s, b) && b !in s.loose ensures Owns(s, b, y) == Owns(u, b, y) {
      PromotedOwns(s, h, b, y);
    }
    KeptSame(s, s.loose, u, s.loose);
  }

  lemma PromotedMove(s: Forest, h: Ptr)
    requires WF(s) && h in s.target && s.up[s.target[h]] in s.loose && s.up[h] in s.live
    requires s.target[h] !in s.loose && s.target[h] !in s.target
    ensures Keyed(s) && s.target[h] in s.live && WF(FreeHandle(s, h)) && s.target[h] in FreeHandle(s, h).live
  {
    FreeHandleWF(s, h);
  }

  lemma PromotedOwns(s: Forest, h: Ptr, b: Ptr, y: Ptr)
    requires WF(s) && h in s.target && s.up[s.target[h]] in s.loose && s.up[h] in s.live
    requires s.target[h] !in s.loose && s.target[h] !in s.target
    requires Plain(s, b) && b !in s.loose && WF(FreeHandle(s, h)) && s.target[h] in FreeHandle(s, h).live
    ensures Owns(s, b, y) == Owns(Move(FreeHandle(s, h), s.target[h], s.up[h]), b, y)
  {
    hide NoDup, Without, TreeWF, RefsWF;
    var c, o := s.target[h], s.up[h];
    var u := Move(FreeHandle(s, h), c, o);
    forall g | g != h ensures Holds(s, b, g, y) == Holds(u, b, g, y) {}
    assert Holds(s, o, h, c) && u.up[c] == o;
    assert !Holds(u, b, h, y);
    assert Holds(s, b, h, y) ==> b == o && y == c;
  }

  /** An abandoned child whose destructor refuses moves up to q. */
  lemma Bubbled(s: Forest, c: Ptr, q: Ptr)
    requires WF(s) && Plain(s, c) && c !in s.loose && c in s.veto && (q != NULL ==> q in s.live)
    ensures Kept(Move(s, c, q), s.loose) == Kept(s, s.loose)
  {
    var u := Move(s, c, q);
    hide WF;
    forall b, y | !Anchor(s, y) ensures Owns(s, b, y) == Owns(u, b, y) {
      forall g | y != c ensures Holds(s, b, g, y) == Holds(u, b, g, y) {}
    }
    KeptSame(s, s.loose, u, s.loose);
  }
}
