/** An ownership graph without cycles can be ranked. */
module Acyclicity {
  import opened Forests
  import opened Ownership
  import opened Freeing

  /** o owns x, leaving out references to `ex`. */
  ghost predicate Edge(s: Forest, ex: Ptr, o: Ptr, x: Ptr) {
    && o in s.live && x in s.live && x in s.up
    && (s.up[x] == o || (x != ex && exists h :: Holds(s, o, h, x)))
  }

  /** b is reached from a in at most n steps of ownership. */
  ghost predicate Leads(s: Forest, ex: Ptr, a: Ptr, b: Ptr, n: nat)
    decreases n
  {
    b in s.live && (a == b || (n > 0 && exists m :: Edge(s, ex, m, b) && Leads(s, ex, a, m, n - 1)))
  }

  ghost predicate Reaches(s: Forest, ex: Ptr, a: Ptr, b: Ptr) {
    exists n: nat :: Leads(s, ex, a, b, n)
  }

  /** Nothing owns itself through others, references to `ex` aside. */
  ghost predicate Acyclic(s: Forest, ex: Ptr) {
    forall o, x {:trigger Edge(s, ex, o, x)} :: Edge(s, ex, o, x) ==> !Reaches(s, ex, x, o)
  }

  ghost function Reached(s: Forest, ex: Ptr, a: Ptr): set<Ptr> {
    set b | b in s.live && Reaches(s, ex, a, b)
  }

  /** Chunks from which more can be reached come first, and what is reached from `ex`
      comes last. */
  ghost function Order(s: Forest, ex: Ptr): map<Ptr, nat> {
    map x | x in s.live :: Standing(s, ex, x)
  }

  ghost function Standing(s: Forest, ex: Ptr, x: Ptr): nat {
    Deficit(s, ex, x) + if Reaches(s, ex, ex, x) then |s.live| + 1 else 0
  }

  ghost function Deficit(s: Forest, ex: Ptr, x: Ptr): (n: nat)
    ensures n == |s.live| - |Reached(s, ex, x)|
  {
    SubsetSize(Reached(s, ex, x), s.live);
    |s.live| - |Reached(s, ex, x)|
  }

  lemma {:induction false} SubsetSize<T>(a: set<T>, b: set<T>)
    requires a <= b
    ensures |a| <= |b|
    ensures a < b ==> |a| < |b|
  {
    if a != {} {
      var x :| x in a;
      SubsetSize(a - {x}, b - {x});
    }
  }

  lemma {:induction false} LeadsFrom(s: Forest, ex: Ptr, o: Ptr, x: Ptr, b: Ptr, n: nat)
    requires Edge(s, ex, o, x) && Leads(s, ex, x, b, n)
    ensures Leads(s, ex, o, b, n + 1)
    decreases n
  {
    if x == b {
      assert Leads(s, ex, o, o, n);
    } else {
      var m :| Edge(s, ex, m, b) && Leads(s, ex, x, m, n - 1);
      LeadsFrom(s, ex, o, x, m, n - 1);
    }
  }

  lemma ReachStep(s: Forest, ex: Ptr, a: Ptr, o: Ptr, x: Ptr)
    requires Edge(s, ex, o, x) && Reaches(s, ex, a, o)
    ensures Reaches(s, ex, a, x)
  {
    var n: nat :| Leads(s, ex, a, o, n);
    assert Leads(s, ex, a, x, n + 1);
  }

  lemma ReachesSelf(s: Forest, ex: Ptr, c: Ptr)
    requires c in s.live
    ensures Reaches(s, ex, c, c)
  {
    assert Leads(s, ex, c, c, 0);
  }

  /** Along an edge the order increases. */
  lemma OrderIncreases(s: Forest, ex: Ptr, o: Ptr, x: Ptr)
    requires Acyclic(s, ex) && Edge(s, ex, o, x)
    ensures Deficit(s, ex, o) < Deficit(s, ex, x) && Standing(s, ex, o) < Standing(s, ex, x)
  {
    hide Deficit, Reaches, Edge, Acyclic;
    FewerReached(s, ex, o, x);
    if Reaches(s, ex, ex, o) { ReachStep(s, ex, ex, o, x); }
  }

  lemma FewerReached(s: Forest, ex: Ptr, o: Ptr, x: Ptr)
    requires Acyclic(s, ex) && Edge(s, ex, o, x)
    ensures Deficit(s, ex, o) < Deficit(s, ex, x)
  {
    var a, b := Reached(s, ex, x), Reached(s, ex, o);
    forall y | y in a ensures y in b {
      var n: nat :| Leads(s, ex, x, y, n);
      LeadsFrom(s, ex, o, x, y, n);
    }
    assert Leads(s, ex, o, o, 0);
    assert o in b && o !in a;
    SubsetSize(a, b);
  }

  /** The forest s with its chunks ranked by that order. */
  ghost function Sorted(s: Forest, ex: Ptr): Forest {
    s.(rank := Order(s, ex))
  }

  /** What has a reference without a holder is p itself or out of its reach. */
  ghost predicate NullsApart(s: Forest, p: Ptr) {
    forall h {:trigger h in s.target} | h in s.target ::
      h in s.up && (s.up[h] == NULL && s.target[h] != p ==> !Reaches(s, p, p, s.target[h]))
  }

  lemma SortedWF(s: Forest, ex: Ptr)
    requires WF(s) && Acyclic(s, ex)
    ensures WF(Sorted(s, ex))
  {
    var t := Sorted(s, ex);
    hide NoDup, Acyclic, Order, Standing;
    assert s.live <= t.rank.Keys by { SortedKeys(s, ex); }
    forall c {:trigger t.up[c]} | c in t.live && t.up[c] != NULL
      ensures t.up[c] in t.live && t.rank[t.up[c]] < t.rank[c] && (c in t.loose || c in t.kids[t.up[c]])
    {
      assert Edge(s, ex, s.up[c], c);
      OrderIncreases(s, ex, s.up[c], c);
      SortedKeys(s, ex);
    }
  }

  lemma SortedKeys(s: Forest, ex: Ptr)
    ensures Order(s, ex).Keys == s.live
    ensures forall x {:trigger Standing(s, ex, x)} | x in s.live :: Order(s, ex)[x] == Standing(s, ex, x)
  {
    hide Standing;
  }

  lemma SortedRanked(s: Forest, ex: Ptr)
    requires WF(s) && Acyclic(s, ex) && WF(Sorted(s, ex))
    ensures Ranked(Sorted(s, ex), ex)
  {
    var t := Sorted(s, ex);
    SortedKeys(s, ex);
    HoldersLive(s);
    hide Order, TreeWF, Deficit, Standing;
    forall h {:trigger h in t.target} | h in t.target && t.up[h] != NULL && t.target[h] != ex
      ensures t.rank[t.up[h]] < t.rank[t.target[h]]
    {
      assert Holds(s, s.up[h], h, s.target[h]);
      assert Edge(s, ex, s.up[h], s.target[h]);
      OrderIncreases(s, ex, s.up[h], s.target[h]);
    }
  }

  lemma HoldersLive(s: Forest)
    requires WF(s)
    ensures forall h {:trigger h in s.target} | h in s.target :: s.target[h] in s.live && (s.up[h] != NULL ==> s.up[h] in s.live)
  {
  }

  lemma {:induction false} LeadsRank(s: Forest, ex: Ptr, a: Ptr, b: Ptr, n: nat)
    requires WF(s) && Ranked(s, ex) && Leads(s, ex, a, b, n)
    ensures a in s.live && s.rank[a] <= s.rank[b]
    decreases n
  {
    hide NoDup, RefsWF;
    if a != b {
      var m :| Edge(s, ex, m, b) && Leads(s, ex, a, m, n - 1);
      LeadsRank(s, ex, a, m, n - 1);
      EdgeRank(s, ex, m, b);
    }
  }

  lemma EdgeRank(s: Forest, ex: Ptr, o: Ptr, x: Ptr)
    requires WF(s) && Ranked(s, ex) && Edge(s, ex, o, x)
    ensures s.rank[o] < s.rank[x]
  {
  }

  /** A graph that is ranked has no cycles, and it takes no ranks to see that. */
  lemma RankedAcyclic(s: Forest, r: Forest, ex: Ptr)
    requires WF(r) && Ranked(r, ex) && r == s.(rank := r.rank)
    ensures Acyclic(s, ex)
  {
    hide NoDup, TreeWF, RefsWF;
    forall o, x {:trigger Edge(s, ex, o, x)} | Edge(s, ex, o, x) ensures !Reaches(s, ex, x, o) {
      if Reaches(s, ex, x, o) {
        var n: nat :| Leads(s, ex, x, o, n);
        LeadsSame(s, r, ex, x, o, n);
        EdgeSame(s, r, ex, o, x);
        LeadsRank(r, ex, x, o, n);
        EdgeRank(r, ex, o, x);
      }
    }
  }

  lemma EdgeSame(s: Forest, t: Forest, ex: Ptr, o: Ptr, x: Ptr)
    requires t == s.(rank := t.rank)
    ensures Edge(t, ex, o, x) == Edge(s, ex, o, x)
  {
    forall h ensures Holds(t, o, h, x) == Holds(s, o, h, x) {}
  }

  lemma {:induction false} LeadsSame(s: Forest, t: Forest, ex: Ptr, a: Ptr, b: Ptr, n: nat)
    requires t == s.(rank := t.rank) && Leads(s, ex, a, b, n)
    ensures Leads(t, ex, a, b, n)
    decreases n
  {
    if a != b {
      var m :| Edge(s, ex, m, b) && Leads(s, ex, a, m, n - 1);
      EdgeSame(s, t, ex, m, b);
      LeadsSame(s, t, ex, a, m, n - 1);
    }
  }

  // ----- making room for a move

  /** Any ranks that grow from parent to child will do. */
  lemma RanksWF(s: Forest, t: Forest)
    requires WF(s) && t == s.(rank := t.rank) && s.live <= t.rank.Keys
    requires forall c {:trigger s.up[c]} | c in s.live && s.up[c] != NULL :: s.up[c] in s.live && t.rank[s.up[c]] < t.rank[c]
    ensures WF(t)
  {
    hide NoDup;
  }

  lemma UpLive(s: Forest)
    requires WF(s)
    ensures forall c {:trigger s.up[c]} | c in s.live && s.up[c] != NULL :: s.up[c] in s.live && s.rank[s.up[c]] < s.rank[c]
  {
  }

  /** The forest s with c and all below it ranked below q. */
  ghost function Lifted(s: Forest, c: Ptr, q: Ptr): Forest
    requires WF(s) && q in s.live
  {
    s.(rank := map x | x in s.live :: if Above(s, c, x) then s.rank[x] + s.rank[q] + 1 else s.rank[x])
  }

  lemma LiftedWF(s: Forest, c: Ptr, q: Ptr)
    requires WF(s) && q in s.live && c in s.live && !Above(s, c, q)
    ensures WF(Lifted(s, c, q)) && Lifted(s, c, q).rank[q] < Lifted(s, c, q).rank[c]
  {
    var t := Lifted(s, c, q);
    hide NoDup, TreeWF, RefsWF;
    UpLive(s);
    forall x {:trigger s.up[x]} | x in s.live && s.up[x] != NULL
      ensures s.up[x] in s.live && t.rank[s.up[x]] < t.rank[x]
    {
      assert Above(s, c, s.up[x]) ==> Above(s, c, x);
    }
    RanksWF(s, t);
    assert Above(s, c, c);
  }

  ghost function Reranked(s: Forest, rank: map<Ptr, nat>): Forest {
    s.(rank := rank)
  }

  /** The parent links make a forest: some ranks grow from parent to child. */
  ghost predicate IsForest(s: Forest) {
    exists rank :: WF(Reranked(s, rank))
  }

  lemma {:induction false} AboveStays(s: Forest, t: Forest, c: Ptr, q: Ptr, x: Ptr)
    requires WF(s) && WF(t) && t.live == s.live && t.up == s.up[c := q] && Above(s, c, x)
    ensures Above(t, c, x)
    decreases s.rank[x]
  {
    hide NoDup, RefsWF;
    UpLive(s);
    if x != c { AboveStays(s, t, c, q, s.up[x]); }
  }

  /** A chunk that moves leaves a forest exactly if its new parent does not lie below it. */
  lemma MoveKeepsForest(s: Forest, c: Ptr, q: Ptr)
    requires WF(s) && s.loose == {} && Plain(s, c) && Plain(s, q) && q != c
    ensures s.up[c] in s.live + {NULL} && (IsForest(Move(s, c, q)) <==> !Above(s, c, q))
  {
    hide NoDup, TreeWF, RefsWF, Above;
    ParentPlain(s, c);
    var t := Move(s, c, q);
    if !Above(s, c, q) {
      LiftedWF(s, c, q);
      MoveWF(Lifted(s, c, q), c, q);
      assert Move(Lifted(s, c, q), c, q) == Reranked(t, Lifted(s, c, q).rank);
    } else if IsForest(t) {
      var rank :| WF(Reranked(t, rank));
      NoCycle(s, c, q, Reranked(t, rank));
    }
  }

  lemma NoCycle(s: Forest, c: Ptr, q: Ptr, t: Forest)
    requires WF(s) && WF(t) && c in s.live && q in s.live && t.live == s.live && t.up == s.up[c := q]
    ensures !Above(s, c, q)
  {
    hide NoDup, RefsWF;
    if Above(s, c, q) {
      AboveStays(s, t, c, q, q);
      AboveRank(t, c, q);
      UpLive(t);
    }
  }

  // ----- the order of chunks does not show in who is kept or who owns what

  lemma KeptSorted(s: Forest, t: Forest, dead: set<Ptr>)
    requires t == s.(rank := t.rank)
    ensures Kept(t, dead) == Kept(s, dead)
  {
    forall o, y ensures Owns(s, o, y) == Owns(t, o, y) {
      forall h ensures Holds(s, o, h, y) == Holds(t, o, h, y) {}
    }
    KeptSame(s, dead, t, dead);
  }

  lemma {:induction false} AboveSorted(s: Forest, t: Forest, a: Ptr, x: Ptr)
    requires WF(s) && WF(t) && t == s.(rank := t.rank)
    ensures Above(t, a, x) == Above(s, a, x)
    decreases if x in s.live then s.rank[x] else 0
  {
    if x in s.live && s.up[x] != NULL { AboveSorted(s, t, a, s.up[x]); }
  }

  /** What begins a free from outside. */
  lemma SortedFreeable(s: Forest, p: Ptr)
    requires WF(s) && s.loose == {} && Plain(s, p) && TrailClear(s, p) && NullsApart(s, p) && Acyclic(s, p)
    ensures Freeable(Sorted(s, p), p)
  {
    hide NoDup, Acyclic, Order;
    SortedWF(s, p);
    SortedRanked(s, p);
    SortedApart(s, p);
  }

  lemma SortedApart(s: Forest, p: Ptr)
    requires WF(s) && p in s.live && NullsApart(s, p) && WF(Sorted(s, p))
    ensures UnheldBefore(Sorted(s, p), p)
  {
    hide NoDup, TreeWF, Order, Reaches;
    SortedKeys(s, p);
    HoldersLive(s);
    ReachesSelf(s, p, p);
    forall x | x in s.live ensures Order(s, p)[x] == Standing(s, p, x) {}
  }
}
