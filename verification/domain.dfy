/** Heaps without ownership cycles stay so: what the operations leave can be freed again. */
module Domain {
  import opened Forests
  import opened Ownership
  import opened Freeing
  import opened Acyclicity
  import opened FreeTheorems
  import opened Renaming
  import opened TallocHeap
  import opened Runs

  /** A heap at rest in which nothing owns itself. */
  ghost predicate Tame(s: Forest) {
    WF(s) && s.loose == {} && Acyclic(s, NULL)
  }

  lemma TameCanFree(s: Forest, p: Ptr)
    requires Tame(s) && Plain(s, p) && TrailClear(s, p) && NullsApart(s, p)
    ensures CanFree(s, p)
  {
    hide NoDup, TreeWF, RefsWF, Acyclic;
    AcyclicFewer(s, NULL, s, p);
  }

  lemma {:induction false} LeadsFewer(s: Forest, e: Ptr, t: Forest, f: Ptr, a: Ptr, b: Ptr, n: nat)
    requires t.live <= s.live && Leads(t, f, a, b, n)
    requires forall o, x {:trigger Edge(t, f, o, x)} | Edge(t, f, o, x) :: Edge(s, e, o, x)
    ensures Leads(s, e, a, b, n)
    decreases n
  {
    if a != b {
      var m :| Edge(t, f, m, b) && Leads(t, f, a, m, n - 1);
      LeadsFewer(s, e, t, f, a, m, n - 1);
    }
  }

  /** Fewer edges make no cycle. */
  lemma AcyclicFewer(s: Forest, e: Ptr, t: Forest, f: Ptr)
    requires t.live <= s.live && Acyclic(s, e)
    requires forall o, x {:trigger Edge(t, f, o, x)} | Edge(t, f, o, x) :: Edge(s, e, o, x)
    ensures Acyclic(t, f)
  {
    forall o, x {:trigger Edge(t, f, o, x)} | Edge(t, f, o, x) ensures !Reaches(t, f, x, o) {
      if Reaches(t, f, x, o) {
        var n: nat :| Leads(t, f, x, o, n);
        LeadsFewer(s, e, t, f, x, o, n);
      }
    }
  }

  /** Some chunks and handles are gone. */
  lemma TameTrimmed(s: Forest, t: Forest)
    requires Tame(s) && WF(t) && t.loose == {} && t.live <= s.live && t.up == s.up
    requires t.target.Keys <= s.target.Keys && forall h | h in t.target :: t.target[h] == s.target[h]
    ensures Tame(t)
  {
    hide NoDup, TreeWF, RefsWF, Acyclic;
    forall o, x {:trigger Edge(t, NULL, o, x)} | Edge(t, NULL, o, x) ensures Edge(s, NULL, o, x) {
      forall h ensures Holds(t, o, h, x) ==> Holds(s, o, h, x) {}
    }
    AcyclicFewer(s, NULL, t, NULL);
  }

  lemma TameHandle(s: Forest, h: Ptr)
    requires Tame(s) && h in s.target
    ensures WF(FreeHandle(s, h)) && Tame(FreeHandle(s, h))
  {
    HandleParts(s, h);
    hide NoDup, TreeWF, RefsWF, Acyclic;
    TameTrimmed(s, FreeHandle(s, h));
  }

  lemma RanksDoNotMatter(s: Forest, t: Forest)
    requires Tame(s) && WF(t) && t == s.(rank := t.rank)
    ensures Tame(t)
  {
    hide NoDup, TreeWF, RefsWF, Acyclic;
    TameTrimmed(s, t);
  }

  lemma TameFreed(s: Forest, p: Ptr, ret: int, t: Forest)
    requires Tame(s) && FreeCall(s, p, ret, t)
    ensures Tame(t)
  {
    hide NoDup, TreeWF, RefsWF, Acyclic, Order, Shed, Progress, Kept, Grounded;
    var r := RankedAs(s, t);
    RanksDoNotMatter(s, r);
    ShedFacts(r, p);
    var u := Shed(r, p);
    TameTrimmed(r, u);
    if u.refs[p] != [] {
      TameHandle(u, u.refs[p][0]);
    } else if p !in u.veto {
      FreedTame(u, p, t);
    }
  }

  lemma FreedTame(s: Forest, p: Ptr, t: Forest)
    requires WF(s) && s.loose == {} && p in s.live && Freed(s, p, t)
    ensures Tame(t)
  {
    hide NoDup, TreeWF, RefsWF, Acyclic;
    RankedAcyclic(t, t, NULL);
  }

  // ----- a new edge

  /** s ranked so that c and all that is reached from it come after q. */
  ghost function Raised(s: Forest, c: Ptr, q: Ptr): Forest
    requires q in s.live
  {
    s.(rank := map x | x in s.live :: Deficit(s, NULL, x) + if Reaches(s, NULL, c, x) then Deficit(s, NULL, q) + 1 else 0)
  }

  lemma RaisedEdge(s: Forest, c: Ptr, q: Ptr, o: Ptr, x: Ptr)
    requires Tame(s) && q in s.live && Edge(s, NULL, o, x)
    ensures var t := Raised(s, c, q); o in t.rank && x in t.rank && t.rank[o] < t.rank[x]
  {
    hide NoDup, TreeWF, RefsWF, Acyclic, Deficit, Reaches;
    OrderIncreases(s, NULL, o, x);
    if Reaches(s, NULL, c, o) { ReachStep(s, NULL, c, o, x); }
  }

  lemma RaisedRanked(s: Forest, c: Ptr, q: Ptr)
    requires Tame(s) && q in s.live && c in s.live && !Reaches(s, NULL, c, q)
    ensures var t := Raised(s, c, q); WF(t) && Ranked(t, NULL) && t.rank[q] < t.rank[c]
  {
    hide NoDup, TreeWF, RefsWF, Acyclic, Deficit, Reaches;
    var t := Raised(s, c, q);
    UpLive(s);
    HoldersLive(s);
    forall x {:trigger s.up[x]} | x in s.live && s.up[x] != NULL ensures t.rank[s.up[x]] < t.rank[x] {
      assert Edge(s, NULL, s.up[x], x);
      RaisedEdge(s, c, q, s.up[x], x);
    }
    RanksWF(s, t);
    forall h {:trigger h in t.target} | h in t.target && t.up[h] != NULL ensures t.rank[t.up[h]] < t.rank[t.target[h]] {
      assert Holds(s, s.up[h], h, s.target[h]);
      assert Edge(s, NULL, s.up[h], s.target[h]);
      RaisedEdge(s, c, q, s.up[h], s.target[h]);
    }
    ReachesSelf(s, NULL, c);
  }

  lemma TameRanked(s: Forest)
    requires Tame(s)
    ensures WF(Sorted(s, NULL)) && Ranked(Sorted(s, NULL), NULL)
  {
    hide NoDup, TreeWF, RefsWF, Acyclic, Order;
    SortedWF(s, NULL);
    SortedRanked(s, NULL);
  }

  lemma RankedMove(s: Forest, c: Ptr, q: Ptr)
    requires WF(s) && s.loose == {} && Ranked(s, NULL) && Plain(s, c)
    requires q != NULL ==> Plain(s, q) && s.rank[q] < s.rank[c]
    ensures s.up[c] in s.live + {NULL} && WF(Move(s, c, q)) && Ranked(Move(s, c, q), NULL)
  {
    hide NoDup, TreeWF, RefsWF;
    ParentPlain(s, c);
    MoveWF(s, c, q);
    HoldersLive(s);
  }

  lemma TameStolen(s: Forest, q: Ptr, c: Ptr, t: Forest)
    requires Tame(s) && Plain(s, c) && Stolen(s, q, c, t)
    requires q != NULL && q != c ==> Plain(s, q) && !Reaches(s, NULL, c, q)
    ensures Tame(t)
  {
    hide Tame, Plain, Stolen, Reaches;
    TameParts(s);
    if q == NULL {
      TameToTop(s, c, t);
    } else if q != c {
      MovedBelow(s, c, q, t);
      TameBelow(s, c, q, t);
    } else {
      StolenBySelf(s, c, t);
    }
  }

  lemma StolenBySelf(s: Forest, c: Ptr, t: Forest)
    requires WF(s) && Plain(s, c) && Stolen(s, c, c, t)
    ensures t == s
  {
  }

  lemma TameToTop(s: Forest, c: Ptr, t: Forest)
    requires Tame(s) && Plain(s, c) && Stolen(s, NULL, c, t)
    ensures Tame(t)
  {
    hide NoDup, TreeWF, RefsWF, Acyclic, Order, Ranked;
    var r := Sorted(s, NULL);
    TameRanked(s);
    RankedMove(r, c, NULL);
    ParentPlain(s, c);
    MoveWF(s, c, NULL);
    RankedAcyclic(t, Move(r, c, NULL), NULL);
  }

  lemma TameBelow(s: Forest, c: Ptr, q: Ptr, t: Forest)
    requires Tame(s) && Plain(s, c) && Stolen(s, q, c, t) && q != NULL && q != c
    requires Plain(s, q) && !Reaches(s, NULL, c, q) && WF(t) && t.loose == {}
    ensures Tame(t)
  {
    hide NoDup, TreeWF, RefsWF, Acyclic, Ranked, Reaches, Deficit, Above;
    var r := Raised(s, c, q);
    RaisedRanked(s, c, q);
    RankedMove(r, c, q);
    RankedAcyclic(t, Move(r, c, q), NULL);
  }

  /** What lies below a chunk is reached from it. */
  lemma {:induction false} AboveReaches(s: Forest, ex: Ptr, a: Ptr, x: Ptr)
    requires WF(s) && Above(s, a, x)
    ensures Reaches(s, ex, a, x)
    decreases s.rank[x]
  {
    hide NoDup, RefsWF, Reaches;
    if a == x {
      ReachesSelf(s, ex, a);
    } else {
      UpLive(s);
      AboveReaches(s, ex, a, s.up[x]);
      assert Edge(s, ex, s.up[x], x);
      ReachStep(s, ex, a, s.up[x], x);
    }
  }

  lemma MovedBelow(s: Forest, c: Ptr, q: Ptr, t: Forest)
    requires Tame(s) && Plain(s, c) && Stolen(s, q, c, t) && q != NULL && q != c
    requires Plain(s, q) && !Reaches(s, NULL, c, q)
    ensures WF(t) && t.loose == {}
  {
    hide NoDup, TreeWF, RefsWF, Acyclic, Reaches, Stolen;
    if Above(s, c, q) { AboveReaches(s, NULL, c, q); }
    StolenKeeps(s, q, c, t);
  }

  lemma TameUnlinked(s: Forest, context: Ptr, p: Ptr, ret: int, t: Forest)
    requires Tame(s) && Plain(s, p) && Unlinked(s, context, p, ret, t)
    ensures Tame(t)
  {
    hide NoDup, TreeWF, RefsWF, Acyclic, FreeCall, Stolen, Reaches;
    var held := FirstHeld(s, context, s.refs[p]);
    if held != NULL {
      TameHandle(s, held);
    } else if s.up[p] == context && s.refs[p] == [] {
      TameFreed(s, p, ret, t);
    } else if s.up[p] == context {
      var h := s.refs[p][0];
      TameHandle(s, h);
      HolderStays(s, h);
      var u, q := FreeHandle(s, h), s.up[h];
      if q != NULL && q != p { NotReached(s, h); }
      TameStolen(u, q, p, t);
    }
  }

  /** A holder is not reached from what it refers to, nor when the reference is gone. */
  lemma NotReached(s: Forest, h: Ptr)
    requires Tame(s) && h in s.target && s.up[h] in s.live
    ensures WF(FreeHandle(s, h)) && !Reaches(FreeHandle(s, h), NULL, s.target[h], s.up[h])
  {
    hide NoDup, TreeWF, RefsWF;
    HandleParts(s, h);
    var u, c, q := FreeHandle(s, h), s.target[h], s.up[h];
    HoldersLive(s);
    assert Holds(s, q, h, c) && Edge(s, NULL, q, c);
    if Reaches(u, NULL, c, q) {
      var n: nat :| Leads(u, NULL, c, q, n);
      forall o, x {:trigger Edge(u, NULL, o, x)} | Edge(u, NULL, o, x) ensures Edge(s, NULL, o, x) {
        forall g ensures Holds(u, o, g, x) ==> Holds(s, o, g, x) {}
      }
      LeadsFewer(s, NULL, u, NULL, c, q, n);
    }
  }

  lemma TameCreated(s: Forest, c: Ptr, q: Ptr, size: nat)
    requires Tame(s) && c !in s.live && c != NULL && (q != NULL ==> Plain(s, q))
    ensures Tame(Create(s, c, q, size))
  {
    hide NoDup, TreeWF, RefsWF, Acyclic, Order;
    var r := Sorted(s, NULL);
    TameRanked(s);
    CreateKeeps(s, c, q, size);
    CreateKeeps(r, c, q, size);
    HoldersLive(r);
    NoOrphan(s, c);
    HandlesLive(r);
    var m := Create(r, c, q, size);
    assert m == Create(s, c, q, size).(rank := m.rank);
    RankedAcyclic(Create(s, c, q, size), m, NULL);
  }

  lemma HandlesLive(s: Forest)
    requires WF(s)
    ensures forall h | h in s.target :: h in s.live && h in s.up
  {
  }

  /** A new reference keeps the heap tame exactly if it has no holder, or one that is not
      reached from what it refers to. */
  lemma TameReferred(s: Forest, q: Ptr, p: Ptr, h: Ptr)
    requires Tame(s) && (q != NULL ==> Plain(s, q)) && Plain(s, p) && h !in s.live && h != NULL
    ensures p in Create(s, h, q, HANDLE_SIZE).refs
    ensures Tame(AddRef(Create(s, h, q, HANDLE_SIZE), h, p)) <==> q == NULL || !Reaches(s, NULL, p, q)
  {
    hide NoDup, TreeWF, RefsWF, Acyclic, Reaches;
    ReferKeeps(s, q, p, h);
    if q == NULL || !Reaches(s, NULL, p, q) {
      var r := if q == NULL then Sorted(s, NULL) else Raised(s, p, q);
      if q == NULL { TameRanked(s); } else { RaisedRanked(s, p, q); }
      ReferKeeps(r, q, p, h);
      HandlesLive(r);
      HoldersLive(r);
      NoOrphan(s, h);
      var m := AddRef(Create(r, h, q, HANDLE_SIZE), h, p);
      assert m == AddRef(Create(s, h, q, HANDLE_SIZE), h, p).(rank := m.rank);
      RankedAcyclic(AddRef(Create(s, h, q, HANDLE_SIZE), h, p), m, NULL);
    } else if Tame(AddRef(Create(s, h, q, HANDLE_SIZE), h, p)) {
      ReferredCycle(s, q, p, h);
    }
  }

  lemma ReferredCycle(s: Forest, q: Ptr, p: Ptr, h: Ptr)
    requires Tame(s) && (q != NULL ==> Plain(s, q)) && Plain(s, p) && h !in s.live && h != NULL
    requires p in Create(s, h, q, HANDLE_SIZE).refs && Tame(AddRef(Create(s, h, q, HANDLE_SIZE), h, p))
    ensures q == NULL || !Reaches(s, NULL, p, q)
  {
    hide NoDup, TreeWF, RefsWF;
    var t := AddRef(Create(s, h, q, HANDLE_SIZE), h, p);
    assert h in t.target && t.up[h] == q;
    HandlesLive(s);
    assert Holds(t, q, h, p) && (q != NULL ==> Edge(t, NULL, q, p));
    if q != NULL && Reaches(s, NULL, p, q) {
      var n: nat :| Leads(s, NULL, p, q, n);
      forall o, x {:trigger Edge(s, NULL, o, x)} | Edge(s, NULL, o, x) ensures Edge(t, NULL, o, x) {
        forall g ensures Holds(s, o, g, x) ==> Holds(t, o, g, x) {}
      }
      LeadsFewer(t, NULL, s, NULL, p, q, n);
    }
  }

  lemma TameRenamed(s: Forest, a: Ptr, b: Ptr, size: nat)
    requires Tame(s) && Renamable(s, a, b)
    ensures Tame(Renamed(s, a, b, size))
  {
    hide NoDup, TreeWF, RefsWF, Acyclic, Order;
    var r := Sorted(s, NULL);
    TameRanked(s);
    RenamedWF(s, a, b, size);
    RenamedWF(r, a, b, size);
    RenamedKeepsRanks(r, a, b, size);
    var m := Renamed(r, a, b, size);
    assert m == Renamed(s, a, b, size).(rank := m.rank);
    RankedAcyclic(Renamed(s, a, b, size), m, NULL);
  }

  lemma RenamedKeepsRanks(s: Forest, a: Ptr, b: Ptr, size: nat)
    requires Renamable(s, a, b) && Ranked(s, NULL) && WF(Renamed(s, a, b, size))
    ensures Ranked(Renamed(s, a, b, size), NULL)
  {
    hide NoDup, TreeWF, RefsWF, ToAll;
    HoldersLive(s);
    NamesApart(s, a, b, size, a);
  }

  lemma {:induction false} BesideKept(s: Forest, p: Ptr, x: Ptr)
    requires WF(s) && s.loose == {} && Plain(s, x) && !Above(s, p, x)
    ensures x in Kept(s, {p})
    decreases s.rank[x]
  {
    hide NoDup;
    if s.up[x] == NULL {
      assert KeptIn(s, {p}, x, 0);
      assert IsKept(s, {p}, x);
    } else {
      ParentPlain(s, x);
      BesideKept(s, p, s.up[x]);
      assert Owns(s, s.up[x], x);
      KeptStep(s, {p}, s.up[x], x);
    }
  }

  /** A call that frees p leaves everything else that the NULL context refers to. */
  lemma UnheldSurvives(s: Forest, p: Ptr, t: Forest, h: Ptr)
    requires s.loose == {} && FreeCall(s, p, 0, t) && NullsApart(s, p)
    requires h in s.target && s.up[h] == NULL && s.target[h] != p
    ensures s.target[h] in t.live
  {
    hide NoDup, TreeWF, RefsWF, FreeOutcome, Above, Reaches;
    var x := s.target[h];
    FreedIsReachability(s, p, t);
    TargetPlain(s, h);
    if Above(s, p, x) { AboveReaches(s, p, p, x); }
    BesideKept(s, p, x);
  }

  lemma TargetPlain(s: Forest, h: Ptr)
    requires WF(s) && h in s.target
    ensures Plain(s, s.target[h])
  {
  }

  // ----- steps and runs

  /** The calls that may make a cycle: a reference or a steal may not go to what is
      reached from the chunk. */
  ghost predicate Harmless(s: Forest, op: Op) {
    match op
    case Refer(context, ptr, handle) =>
      ptr != NULL && handle != NULL && context != NULL ==> !Reaches(s, NULL, ptr, context)
    case StealTo(newCtx, ptr) =>
      ptr != NULL && newCtx != NULL && newCtx != ptr ==> !Reaches(s, NULL, ptr, newCtx)
    case _ => true
  }

  lemma StepTame(s: Forest, op: Op, t: Forest)
    requires Tame(s) && Allowed(s, op) && Does(s, op, t) && Harmless(s, op)
    ensures Tame(t)
  {
    hide WF, Tame, Stolen, Unlinked, Unlinkable, CanFree, FreeCall, Acyclic, TrailClear, Create, AddRef, Renamed, Reaches;
    TameParts(s);
    StepKeeps(s, op, t);
    match op {
      case Allocate(context, size, tc) =>
        if t != s { TameCreated(s, tc, context, size); }
      case Destructing(_, _) => TameTrimmed(s, t);
      case Refer(context, ptr, handle) =>
        if ptr != NULL && handle != NULL { TameReferred(s, context, ptr, handle); }
      case StealTo(newCtx, ptr) =>
        if ptr != NULL { TameStolen(s, newCtx, ptr, t); }
      case FreeOf(ptr) => FreeTame(s, ptr, t);
      case UnlinkOf(context, ptr) =>
        if ptr != NULL {
          var ret :| Unlinked(s, context, ptr, ret, t);
          TameUnlinked(s, context, ptr, ret, t);
        }
      case Reallocate(context, ptr, size, newPtr) => ReallocateTame(s, context, ptr, size, newPtr, t);
    }
  }

  lemma TameParts(s: Forest)
    requires Tame(s)
    ensures WF(s) && s.loose == {} && NULL !in s.live
  {
  }

  lemma FreeTame(s: Forest, ptr: Ptr, t: Forest)
    requires Tame(s) && FreeDoes(s, ptr, t)
    ensures Tame(t)
  {
    hide WF, Tame, FreeCall;
    if ptr != NULL {
      var ret :| FreeCall(s, ptr, ret, t);
      TameFreed(s, ptr, ret, t);
    }
  }

  lemma ReallocateTame(s: Forest, context: Ptr, ptr: Ptr, size: nat, newPtr: Ptr, t: Forest)
    requires Tame(s) && Allowed(s, Reallocate(context, ptr, size, newPtr)) && WF(t) && t.loose == {}
    requires Does(s, Reallocate(context, ptr, size, newPtr), t)
    ensures Tame(t)
  {
    hide TreeWF, RefsWF, FreeDoes, CanFree, Create, Renamed, Acyclic;
    if size == 0 {
      FreeTame(s, ptr, t);
    } else if ptr == NULL {
      if t != s { TameCreated(s, newPtr, context, size); }
    } else if size < MAX_TALLOC_SIZE && s.refs[ptr] == [] && newPtr != NULL {
      if newPtr == ptr { TameTrimmed(s, t); } else { TameRenamed(s, ptr, newPtr, size); }
    }
  }

  /** In a run whose references and steals make no cycle every state is tame, so that
      every chunk can be freed that does not follow a reference handle and reaches nothing
      else that the NULL context refers to. */
  lemma {:induction false} RunTame(states: seq<Forest>, ops: seq<Op>, n: nat)
    requires IsRun(states, ops) && n < |states|
    requires forall i {:trigger ops[i]} | 0 <= i < n :: Harmless(states[i], ops[i])
    ensures Tame(states[n])
    ensures forall p | Plain(states[n], p) && TrailClear(states[n], p) && NullsApart(states[n], p) :: CanFree(states[n], p)
  {
    hide WF, Allowed, Does, Tame, CanFree, TrailClear, NullsApart, Harmless;
    if n == 0 {
      NothingTame();
    } else {
      RunTame(states, ops, n - 1);
      var op := ops[n - 1];
      TameParts(states[n - 1]);
      assert Follows(states[n - 1], op, states[n]);
      StepTame(states[n - 1], op, states[n]);
    }
    TameParts(states[n]);
    forall p | Plain(states[n], p) && TrailClear(states[n], p) && NullsApart(states[n], p) ensures CanFree(states[n], p) {
      TameCanFree(states[n], p);
    }
  }

  lemma NothingTame()
    ensures Tame(NOTHING)
  {
  }
}
