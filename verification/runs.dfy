/** Runs of the allocator: any sequence of its operations from an empty heap. */
module Runs {
  import opened Forests
  import opened Ownership
  import opened Freeing
  import opened Memories
  import opened Acyclicity
  import opened FreeTheorems
  import opened Renaming
  import opened TallocHeap

  /** A call, with the address that malloc or realloc would return. */
  datatype Op =
    | Allocate(context: Ptr, size: nat, tc: Ptr)
    | Destructing(ptr: Ptr, refuses: bool)
    | Refer(context: Ptr, ptr: Ptr, handle: Ptr)
    | StealTo(newCtx: Ptr, ptr: Ptr)
    | FreeOf(ptr: Ptr)
    | UnlinkOf(context: Ptr, ptr: Ptr)
    | Reallocate(context: Ptr, ptr: Ptr, size: nat, newPtr: Ptr)

  /** What a caller must see to. */
  ghost predicate Allowed(s: Forest, op: Op)
    requires WF(s)
  {
    match op
    case Allocate(context, size, tc) => (context != NULL ==> Plain(s, context)) && tc !in s.live
    case Destructing(ptr, _) => Plain(s, ptr)
    case Refer(context, ptr, handle) =>
      (context != NULL ==> Plain(s, context)) && (ptr != NULL ==> Plain(s, ptr)) && handle !in s.live
    case StealTo(newCtx, ptr) =>
      && (ptr != NULL ==> Plain(s, ptr)) && (newCtx != NULL ==> Plain(s, newCtx))
      && (ptr != NULL && newCtx != NULL && newCtx != ptr ==> !Above(s, ptr, newCtx))
    case FreeOf(ptr) => ptr != NULL ==> CanFree(s, ptr)
    case UnlinkOf(context, ptr) => ptr != NULL ==> Plain(s, ptr) && Unlinkable(s, context, ptr)
    case Reallocate(context, ptr, size, newPtr) =>
      && (ptr != NULL ==> Plain(s, ptr)) && (newPtr !in s.live || newPtr == ptr)
      && (ptr == NULL ==> context == NULL || Plain(s, context)) && (size == 0 && ptr != NULL ==> CanFree(s, ptr))
  }

  ghost predicate FreeDoes(s: Forest, ptr: Ptr, t: Forest)
    requires WF(s)
  {
    if ptr == NULL then t == s else exists ret :: FreeCall(s, ptr, ret, t)
  }

  ghost predicate AllocateDoes(s: Forest, context: Ptr, size: nat, tc: Ptr, t: Forest)
    requires WF(s) && (context != NULL ==> Plain(s, context))
  {
    t == if size >= MAX_TALLOC_SIZE || tc == NULL then s else Create(s, tc, context, size)
  }

  /** The change that a call makes to the forest. */
  ghost predicate Does(s: Forest, op: Op, t: Forest)
    requires WF(s) && Allowed(s, op)
  {
    match op
    case Allocate(context, size, tc) => AllocateDoes(s, context, size, tc, t)
    case Destructing(ptr, refuses) => t == s.(veto := if refuses then s.veto + {ptr} else s.veto - {ptr})
    case Refer(context, ptr, handle) =>
      if ptr == NULL || handle == NULL then t == s
      else ptr in s.live && t == AddRef(Create(s, handle, context, HANDLE_SIZE), handle, ptr)
    case StealTo(newCtx, ptr) => if ptr == NULL then t == s else Stolen(s, newCtx, ptr, t)
    case FreeOf(ptr) => FreeDoes(s, ptr, t)
    case UnlinkOf(context, ptr) =>
      if ptr == NULL then t == s else exists ret :: Unlinked(s, context, ptr, ret, t)
    case Reallocate(context, ptr, size, newPtr) =>
      if size == 0 then FreeDoes(s, ptr, t)
      else if ptr == NULL then AllocateDoes(s, context, size, newPtr, t)
      else if size >= MAX_TALLOC_SIZE || s.refs[ptr] != [] || newPtr == NULL then t == s
      else if newPtr == ptr then t == s.(size := s.size[ptr := size])
      else Keyed(s) && newPtr !in s.live && t == Renamed(s, ptr, newPtr, size)
  }

  /** The operations on the links do what the call is to do. */
  method Perform(heap: Heap, op: Op)
    requires heap.Valid() && heap.s.loose == {} && Allowed(heap.s, op)
    modifies heap
    ensures heap.Valid() && heap.s.loose == {}
    ensures Does(old(heap.s), op, heap.s)
  {
    hide WF, Represents, FreeCall, Unlinked, Stolen, Acyclic, TrailClear, Unlinkable, Renamed;
    KeysLive(heap.mem, heap.s);
    match op {
      case Allocate(context, size, tc) =>
        var _ := heap.Talloc(context, size, tc);
      case Destructing(ptr, refuses) =>
        heap.SetDestructor(ptr, if refuses then Refuses else Succeeds);
      case Refer(context, ptr, handle) =>
        var _ := heap.Reference(context, ptr, handle);
      case StealTo(newCtx, ptr) =>
        var _ := heap.Steal(newCtx, ptr);
      case FreeOf(ptr) =>
        var _ := heap.TallocFree(ptr);
      case UnlinkOf(context, ptr) =>
        var _ := heap.TallocUnlink(context, ptr);
      case Reallocate(context, ptr, size, newPtr) =>
        var _ := heap.Realloc(context, ptr, size, newPtr);
    }
  }

  lemma KeysLive(m: Memory, s: Forest)
    requires Represents(m, s)
    ensures m.Keys == s.live && WF(s)
  {
  }

  // ----- every step keeps the heap in order

  lemma CreateKeeps(s: Forest, c: Ptr, q: Ptr, size: nat)
    requires WF(s) && c !in s.live && c != NULL && (q != NULL ==> Plain(s, q))
    ensures var t := Create(s, c, q, size);
      && WF(t) && t.loose == s.loose && Plain(t, c) && t.live == s.live + {c} && t.target == s.target
      && t.kids[c] == [] && t.refs[c] == []
  {
    hide NoDup, TreeWF, RefsWF;
    FreshWF(s, c, q, size);
    AttachWF(Fresh(s, c, q, size), c, q);
    NoOrphan(s, c);
  }

  lemma NoOrphan(s: Forest, c: Ptr)
    requires WF(s) && c !in s.live
    ensures c !in s.target && c !in s.loose
  {
  }

  lemma AddRefKeeps(s: Forest, h: Ptr, a: Ptr)
    requires WF(s) && s.loose == {} && Plain(s, h) && Plain(s, a) && h != a && s.kids[h] == [] && s.refs[h] == []
    ensures WF(AddRef(s, h, a)) && AddRef(s, h, a).loose == {}
  {
    AddRefWF(s, h, a);
  }

  lemma StolenKeeps(s: Forest, q: Ptr, c: Ptr, t: Forest)
    requires WF(s) && s.loose == {} && Plain(s, c) && Stolen(s, q, c, t)
    requires q != NULL ==> Plain(s, q) && (q != c ==> !Above(s, c, q))
    ensures WF(t) && t.loose == {}
  {
    hide NoDup, TreeWF, RefsWF, Above;
    ParentPlain(s, c);
    if q != c && q != NULL {
      LiftedWF(s, c, q);
      MoveWF(Lifted(s, c, q), c, q);
    } else if q == NULL {
      MoveWF(s, c, q);
    }
  }

  lemma FreedKeeps(s: Forest, p: Ptr, ret: int, t: Forest)
    requires WF(s) && s.loose == {} && Plain(s, p) && FreeOutcome(s, p, ret, t)
    ensures WF(t) && t.loose == {}
  {
    ShedFacts(s, p);
    var u := Shed(s, p);
    hide NoDup, TreeWF, RefsWF;
    if u.refs[p] != [] {
      FreeHandleWF(u, u.refs[p][0]);
    }
  }

  lemma UnlinkedKeeps(s: Forest, context: Ptr, p: Ptr, ret: int, t: Forest)
    requires WF(s) && s.loose == {} && Plain(s, p) && Unlinkable(s, context, p) && Unlinked(s, context, p, ret, t)
    ensures WF(t) && t.loose == {}
  {
    hide NoDup, TreeWF, RefsWF, FreeOutcome, Stolen, Above;
    var held := FirstHeld(s, context, s.refs[p]);
    if held != NULL {
      FreeHandleWF(s, held);
    } else if s.up[p] == context && s.refs[p] == [] {
      FreedKeeps(RankedAs(s, t), p, ret, t);
    } else if s.up[p] == context {
      var h := s.refs[p][0];
      HolderStays(s, h);
      var u, q := FreeHandle(s, h), s.up[h];
      if q != NULL && Above(u, p, q) { AboveFewer(s, u, p, q); }
      StolenKeeps(u, q, p, t);
    }
  }

  lemma StepKeeps(s: Forest, op: Op, t: Forest)
    requires WF(s) && s.loose == {} && Allowed(s, op) && Does(s, op, t)
    ensures WF(t) && t.loose == {}
  {
    hide WF, Stolen, Unlinked, Unlinkable, CanFree, FreeOutcome, Acyclic, TrailClear, Create, AddRef, Renamed;
    match op {
      case Allocate(context, size, tc) => AllocateKeeps(s, context, size, tc, t);
      case Destructing(_, _) => VetoWF(s, t);
      case Refer(context, ptr, handle) =>
        if ptr != NULL && handle != NULL { ReferKeeps(s, context, ptr, handle); }
      case StealTo(newCtx, ptr) =>
        if ptr != NULL { StolenKeeps(s, newCtx, ptr, t); }
      case FreeOf(ptr) => FreeKeeps(s, ptr, t);
      case UnlinkOf(context, ptr) =>
        if ptr != NULL {
          var ret :| Unlinked(s, context, ptr, ret, t);
          UnlinkedKeeps(s, context, ptr, ret, t);
        }
      case Reallocate(context, ptr, size, newPtr) => ReallocateKeeps(s, context, ptr, size, newPtr, t);
    }
  }

  lemma AllocateKeeps(s: Forest, context: Ptr, size: nat, tc: Ptr, t: Forest)
    requires WF(s) && s.loose == {} && (context != NULL ==> Plain(s, context)) && tc !in s.live
    requires AllocateDoes(s, context, size, tc, t)
    ensures WF(t) && t.loose == {}
  {
    hide WF, Create;
    if size < MAX_TALLOC_SIZE && tc != NULL { CreateKeeps(s, tc, context, size); }
  }

  lemma ReferKeeps(s: Forest, context: Ptr, ptr: Ptr, handle: Ptr)
    requires WF(s) && s.loose == {} && (context != NULL ==> Plain(s, context)) && Plain(s, ptr)
    requires handle !in s.live && handle != NULL
    ensures ptr in Create(s, handle, context, HANDLE_SIZE).refs
    ensures var t := AddRef(Create(s, handle, context, HANDLE_SIZE), handle, ptr); WF(t) && t.loose == {}
  {
    hide WF, Create;
    CreateKeeps(s, handle, context, HANDLE_SIZE);
    var u := Create(s, handle, context, HANDLE_SIZE);
    KeyedOf(u);
    AddRefKeeps(u, handle, ptr);
  }

  lemma KeyedOf(s: Forest)
    requires WF(s)
    ensures Keyed(s)
  {
  }

  lemma FreeKeeps(s: Forest, ptr: Ptr, t: Forest)
    requires WF(s) && s.loose == {} && FreeDoes(s, ptr, t)
    ensures WF(t) && t.loose == {}
  {
    hide WF, FreeOutcome, Order, Acyclic;
    if ptr != NULL {
      var ret :| FreeCall(s, ptr, ret, t);
      FreedKeeps(RankedAs(s, t), ptr, ret, t);
    }
  }

  lemma ReallocateKeeps(s: Forest, context: Ptr, ptr: Ptr, size: nat, newPtr: Ptr, t: Forest)
    requires WF(s) && s.loose == {} && Allowed(s, Reallocate(context, ptr, size, newPtr))
    requires Does(s, Reallocate(context, ptr, size, newPtr), t)
    ensures WF(t) && t.loose == {}
  {
    hide TreeWF, RefsWF, FreeDoes, CanFree, AllocateDoes, Renamed;
    if size == 0 {
      FreeKeeps(s, ptr, t);
    } else if ptr == NULL {
      AllocateKeeps(s, context, size, newPtr, t);
    } else if size < MAX_TALLOC_SIZE && s.refs[ptr] == [] && newPtr != NULL {
      if newPtr == ptr {
        ResizedWF(s, t);
      } else {
        RenamedWF(s, ptr, newPtr, size);
        RenamedAt(s, ptr, newPtr, size, newPtr);
      }
    }
  }

  // ----- runs

  /** One call, which may be made and does what it is to do. Nothing is assumed about
      forests that are not in order: that none of them is reached is the theorem. */
  ghost predicate Follows(s: Forest, op: Op, t: Forest) {
    WF(s) ==> Allowed(s, op) && Does(s, op, t)
  }

  /** The states that calls lead through, from the empty heap on. */
  ghost predicate IsRun(states: seq<Forest>, ops: seq<Op>) {
    && |states| == |ops| + 1 && states[0] == NOTHING
    && forall i {:trigger ops[i]} | 0 <= i < |ops| ::
         Follows(states[i], ops[i], states[i + 1])
  }

  /** Handles and reference lists agree; nothing dangles, is lost or is listed twice. */
  ghost predicate Agreement(s: Forest)
    requires WF(s)
  {
    && s.loose == {}
    && (forall h {:trigger h in s.target} | h in s.target :: h in s.live && s.target[h] in s.live && h in s.refs[s.target[h]])
    && (forall a, i, b, j {:trigger s.refs[a][i], s.refs[b][j]} |
          a in s.live && b in s.live && 0 <= i < |s.refs[a]| && 0 <= j < |s.refs[b]| && s.refs[a][i] == s.refs[b][j] :: a == b && i == j)
    && (forall a {:trigger s.refs[a]} | a in s.live :: |s.refs[a]| == |set h | h in s.target && s.target[h] == a|)
    && PlainChunks(s) == Kept(s, {})
  }

  lemma Agrees(s: Forest)
    requires WF(s) && s.loose == {}
    ensures Agreement(s)
  {
    forall a, i, b, j {:trigger s.refs[a][i], s.refs[b][j]} |
      a in s.live && b in s.live && 0 <= i < |s.refs[a]| && 0 <= j < |s.refs[b]| && s.refs[a][i] == s.refs[b][j]
      ensures a == b && i == j
    {
      assert s.refs[a][i] in s.refs[a] && s.refs[b][j] in s.refs[b];
    }
    forall a {:trigger s.refs[a]} | a in s.live ensures |s.refs[a]| == |set h | h in s.target && s.target[h] == a| {
      HandlesCounted(s, a);
    }
    AllKept(s);
    KeptPlain(s, {});
  }

  /** In every state of every run references agree with their lists, and no chunk is
      out of reach. */
  lemma {:induction false} RunAgreement(states: seq<Forest>, ops: seq<Op>, n: nat)
    requires IsRun(states, ops) && n < |states|
    ensures WF(states[n]) && Agreement(states[n])
  {
    hide WF, Allowed, Does, Agreement;
    if n == 0 {
      NothingWF();
    } else {
      RunAgreement(states, ops, n - 1);
      var op := ops[n - 1];
      assert Follows(states[n - 1], op, states[n]);
      Resting(states[n - 1]);
      StepKeeps(states[n - 1], op, states[n]);
    }
    Agrees(states[n]);
  }

  lemma NothingWF()
    ensures WF(NOTHING) && NOTHING.loose == {}
  {
  }

  lemma Resting(s: Forest)
    requires WF(s) && Agreement(s)
    ensures s.loose == {}
  {
  }
}
