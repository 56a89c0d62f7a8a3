/** The hierarchical allocator: operations on the raw links, each tied to the
    change it makes to the forest the links stand for. */
module TallocHeap {
  import opened Forests
  import opened Ownership
  import opened Heirs
  import opened Freeing
  import opened Memories
  import opened Acyclicity
  import opened FreeTheorems
  import opened Sizes
  import opened Renaming

  const MAX_TALLOC_SIZE: nat := 0x10000000

  /** sizeof(struct talloc_reference_handle): three pointers. */
  const HANDLE_SIZE: nat := 24

  /** No chunk being freed relies on a reference handle to find its parent. */
  ghost predicate Anchored(m: Memory, s: Forest)
    requires s.loose <= m.Keys
  {
    forall d {:trigger d in s.loose} | d in s.loose :: m[d].prev !in s.target
  }

  lemma Heads(m: Memory, s: Forest, c: Ptr)
    requires Represents(m, s) && c in s.live
    ensures c != NULL && m[c].refs == Nth(s.refs[c], 0) && m[c].child == Nth(s.kids[c], 0)
    ensures s.refs[c] != [] ==> s.refs[c][0] in s.target && s.target[s.refs[c][0]] == c && s.refs[c][0] in s.live && s.refs[c][0] != NULL
    ensures s.kids[c] != [] ==> s.kids[c][0] in s.live - s.loose && s.up[s.kids[c][0]] == c && s.kids[c][0] != NULL
  {
    assert RefLinked(m, c, s.refs[c]) && Linked(m, c, s.kids[c]);
    assert s.refs[c] != [] ==> s.refs[c][0] in s.refs[c];
    assert s.kids[c] != [] ==> s.kids[c][0] in s.kids[c];
  }

  /** Taking out what is freed next hides no parent. */
  lemma FreeUntraced(m: Memory, s: Forest, p: Ptr)
    requires Represents(m, s) && Anchored(m, s) && (p in s.target || Freeable(s, p))
    ensures p in s.live && p !in s.loose && Untraced(m, s, p) && s.up[p] !in s.target
    ensures p in s.target ==> s.refs[p] == [] && s.kids[p] == [] && p !in s.veto && s.target[p] != p && s.up[p] != p
    ensures p !in s.target ==> m[p].prev !in s.target
  {
    assert s.up[p] != NULL ==> p in s.kids[s.up[p]];
    if p !in s.target {
      var j := Place(m, s, p);
      assert s.up[p] != NULL && j > 0 ==> s.kids[s.up[p]][j - 1] !in s.target;
    }
  }

  lemma FreeLive(m: Memory, s: Forest, p: Ptr)
    requires Represents(m, s) && (p in s.target || Plain(s, p) || Freeable(s, p))
    ensures p in s.live && (p in s.target ==> s.refs[p] == [])
  {
  }

  /** A free of a referenced chunk begins with its latest reference. */
  lemma FirstReference(s: Forest, p: Ptr)
    requires WF(s) && p in s.live && s.refs[p] != [] && p !in s.target
    requires Freeable(s, p) || Elsewhere(s, p)
    ensures Plain(s, p)
    ensures var h := s.refs[p][0]; h in s.target && s.target[h] == p && WF(FreeHandle(s, h)) && Plain(FreeHandle(s, h), p)
    ensures var h := s.refs[p][0];
      if Above(s, p, h) then Freeable(FreeHandle(s, h), p) else FreeOutcome(s, p, -1, FreeHandle(s, h))
  {
    hide NoDup, TreeWF, RefsWF, Above, Freeable, FreeOutcome;
    LatestHandle(s, p);
    if Freeable(s, p) { LatestReference(s, p); } else { ElsewhereCall(s, p); }
  }

  lemma DeepestUntraced(m: Memory, s: Forest, c: Ptr)
    requires Represents(m, s) && Deepest(s, c)
    ensures Untraced(m, s, c)
  {
  }

  lemma SizeAt(m: Memory, s: Forest, c: Ptr)
    requires Represents(m, s) && c in s.live
    ensures m[c].size == Weight(s.size, c) && Weight(Ones(s), c) == 1
  {
  }

  lemma ReleaseRepresents(m: Memory, s: Forest, c: Ptr)
    requires Represents(m, s) && c in s.loose && WF(Remove(s, c))
    requires c !in s.target && s.refs[c] == []
    ensures Represents(m - {c}, Remove(s, c))
  {
    hide NoDup, TreeWF, RefsWF, RefLists, Siblings, Tops, Stales;
    TreeRemoved(m, s, c);
    RefsLive(s);
    RefListsKept(m, m - {c}, s, Remove(s, c));
  }

  /** What talloc_free(p) needs: nothing if the latest reference to p comes from elsewhere
      or the heap has no references. */
  ghost predicate CanFree(s: Forest, p: Ptr)
    requires WF(s)
  {
    && Plain(s, p)
    && (Elsewhere(s, p) || s.target == map[] || (TrailClear(s, p) && NullsApart(s, p) && Acyclic(s, p)))
  }

  lemma CanFreeFacts(s: Forest, p: Ptr)
    requires WF(s) && CanFree(s, p) && !Elsewhere(s, p)
    ensures TrailClear(s, p) && NullsApart(s, p) && Acyclic(s, p)
  {
    hide NoDup, TreeWF, RefsWF, Acyclic, Above;
    if s.target == map[] {
      RankedAcyclic(s, s, p);
    }
  }

  /** The chunk that is referenced from below itself can be freed. */
  lemma BelowCanFree()
    ensures WF(BELOW) && CanFree(BELOW, 1) && !Elsewhere(BELOW, 1)
  {
    hide NoDup, Acyclic, TreeWF, RefsWF, Above;
    BelowTree();
    BelowRefs();
    BelowInOrder();
    RankedAcyclic(BELOW, BELOW, 1);
  }

  /** What talloc_unlink needs when it comes to free p or to steal it: p is fit to be
      freed, or the owner that takes over does not lie below p. */
  ghost predicate Unlinkable(s: Forest, context: Ptr, p: Ptr)
    requires WF(s) && Plain(s, p)
  {
    s.up[p] == context && FirstHeld(s, context, s.refs[p]) == NULL ==>
      if s.refs[p] == [] then CanFree(s, p)
      else s.refs[p][0] in s.up && !Above(s, p, s.up[s.refs[p][0]])
  }

  /** ptr moves to newCtx; ranks, which are not stored, make way. */
  ghost predicate Stolen(s: Forest, newCtx: Ptr, ptr: Ptr, t: Forest)
    requires WF(s) && Plain(s, ptr)
  {
    if ptr == newCtx then t == s
    else if newCtx == NULL then s.up[ptr] in s.live + {NULL} && t == Move(s, ptr, NULL)
    else newCtx in s.live && s.up[ptr] in s.live + {NULL} && t == Move(Lifted(s, ptr, newCtx), ptr, newCtx)
  }

  /** What talloc_unlink leaves: the latest reference that the context holds goes; else,
      if the context is the parent, the chunk goes, or the holder of its latest reference
      takes over; else nothing happens. */
  ghost predicate Unlinked(s: Forest, context: Ptr, ptr: Ptr, ret: int, t: Forest)
    requires WF(s) && Plain(s, ptr)
  {
    var held := FirstHeld(s, context, s.refs[ptr]);
    if held != NULL then ret == 0 && held in s.target && s.target[held] == ptr && WF(s) && t == FreeHandle(s, held)
    else if s.up[ptr] != context then ret == -1 && t == s
    else if s.refs[ptr] == [] then FreeCall(s, ptr, ret, t)
    else
      var h := s.refs[ptr][0];
      && ret == 0 && h in s.target && s.target[h] == ptr && h in s.up
      && WF(FreeHandle(s, h)) && Plain(FreeHandle(s, h), ptr) && Stolen(FreeHandle(s, h), s.up[h], ptr, t)
  }

  lemma HandleNotNull(s: Forest, p: Ptr, i: nat)
    requires WF(s) && p in s.live && i < |s.refs[p]|
    ensures s.refs[p][i] != NULL
  {
    assert s.refs[p][i] in s.refs[p];
  }

  /** The holder of the latest reference has taken over from the parent. */
  lemma HandedOver(s: Forest, p: Ptr, t: Forest)
    requires WF(s) && Plain(s, p) && s.refs[p] != []
    requires var h := s.refs[p][0];
      && h in s.target && s.target[h] == p && h in s.up && WF(FreeHandle(s, h)) && Plain(FreeHandle(s, h), p)
      && s.up[h] != p && Stolen(FreeHandle(s, h), s.up[h], p, t)
    ensures var h := s.refs[p][0];
      && t.live == s.live - {h} && t.target == s.target - {h} && t.refs == s.refs[p := s.refs[p][1..]]
      && t.up == s.up[p := s.up[h]] && t.veto == s.veto && t.size == s.size
  {
    hide NoDup, TreeWF, RefsWF, FreeHandle, Lifted, Without;
    HandleAtIndex(s, p, 0);
    assert s.refs[p][..0] + s.refs[p][1..] == s.refs[p][1..];
    LiftedFields(FreeHandle(s, s.refs[p][0]), p, s.up[s.refs[p][0]]);
  }

  lemma LiftedFields(s: Forest, c: Ptr, q: Ptr)
    requires WF(s)
    ensures q in s.live ==> Lifted(s, c, q) == s.(rank := Lifted(s, c, q).rank)
  {
  }

  class Heap {
    var mem: Memory
    ghost var s: Forest

    /** The links stand for s, and exactly the chunks being freed are flagged. */
    ghost predicate Valid()
      reads this
    {
      Represents(mem, s) && Flags(mem, s.loose)
    }

    constructor ()
      ensures Valid() && s == NOTHING
    {
      mem, s := map[], NOTHING;
    }

    // ----- looking up

    /** talloc_parent_chunk */
    method ParentChunk(ptr: Ptr) returns (p: Ptr)
      requires WF(s) && Tree(mem, s) && (ptr != NULL ==> ptr in s.live)
      ensures p == if ptr == NULL then NULL else s.up[ptr]
    {
      hide NoDup, TreeWF, RefsWF, Siblings, Tops, Stales, Position;
      if ptr == NULL { return NULL; }
      var tc := ptr;
      StepLeft(mem, s, tc);
      while mem[tc].prev != NULL
        invariant tc in s.live && s.up[tc] == s.up[ptr] && tc in mem
        invariant tc in s.loose ==> tc == ptr
        decreases tc in s.loose, if s.up[ptr] in s.kids then Position(s.kids[s.up[ptr]], tc) else 0
      {
        StepLeft(mem, s, tc);
        tc := mem[tc].prev;
      }
      StepLeft(mem, s, tc);
      p := mem[tc].parent;
    }

    /** _talloc_is_parent */
    method IsParent(context: Ptr, ptr: Ptr) returns (r: bool)
      requires WF(s) && Tree(mem, s) && (context != NULL ==> context in s.live)
      ensures r <==> context != NULL && Above(s, ptr, context)
    {
      if context == NULL { return false; }
      var tc := context;
      while tc != NULL
        invariant tc != NULL ==> tc in s.live
        invariant Above(s, ptr, context) <==> tc != NULL && Above(s, ptr, tc)
        decreases if tc == NULL then 0 else s.rank[tc] + 1
      {
        if tc == ptr { return true; }
        // to the first sibling and on to the parent that it stores
        tc := ParentChunk(tc);
      }
      r := false;
    }

    // ----- leaving and joining sibling lists

    /** The unlinking step that talloc_steal and talloc_free share. */
    method Relink(c: Ptr, ghost q: Ptr, ghost ks: seq<Ptr>, ghost j: nat)
      requires NULL !in mem && c in mem
      requires if q == NULL then mem[c].next == NULL && mem[c].prev == NULL && mem[c].parent == NULL
               else Linked(mem, q, ks) && q !in ks && NoDup(ks) && j < |ks| && ks[j] == c
      modifies this`mem
      ensures if q == NULL then mem == old(mem) else Relinked(old(mem), mem, q, ks, j)
    {
      if q != NULL {
        assert j > 0 ==> ks[j - 1] in ks && ks[j - 1] != c && ks[j - 1] in mem;
        assert j + 1 < |ks| ==> ks[j + 1] in ks && ks[j + 1] != c && ks[j + 1] in mem;
        assert j > 0 && j + 1 < |ks| ==> ks[j - 1] != ks[j + 1];
        assert ks[j] in ks && LinkAt(mem, q, ks, j);
      }
      hide NoDup;
      if mem[c].parent != NULL {
        var list := mem[c].parent;
        // c is the head of the list
        mem := mem[list := mem[list].(child := mem[c].next)];
        var head := mem[list].child;
        if head != NULL { mem := mem[head := mem[head].(prev := NULL)]; }
        if c != head { mem := mem[c := mem[c].(next := NULL, prev := NULL)]; }
        if head != NULL { mem := mem[head := mem[head].(parent := list)]; }
      } else {
        var prev, next := mem[c].prev, mem[c].next;
        if prev != NULL { mem := mem[prev := mem[prev].(next := next)]; }
        if next != NULL { mem := mem[next := mem[next].(prev := prev)]; }
      }
    }

    method Detach(c: Ptr)
      requires Represents(mem, s) && c in s.live && c !in s.loose && c !in s.target && s.up[c] !in s.target
      requires Untraced(mem, s, c)
      modifies this
      ensures Represents(mem, s) && s == Unlink(old(s), c)
      ensures OnlyLinks(old(mem), mem)
      ensures mem[c].prev == old(mem[c].prev)
      ensures forall d | d in old(s.loose) :: mem[d].prev == old(mem[d].prev)
    {
      hide NoDup, TreeWF, RefsWF, Linked, Siblings, Tops, Stales, RefLists, Marks, Without;
      UnlinkWF(s, c);
      ghost var j := Place(mem, s, c);
      ghost var q, t := s.up[c], Unlink(s, c);
      ghost var ks := if q == NULL then [] else s.kids[q];
      ghost var m0 := mem;
      Relink(c, q, ks, j);
      if q == NULL {
        TreeDetachedTop(mem, s, c);
      } else {
        DetachedTrace(m0, mem, s, c, j);
        TreeDetached(m0, mem, s, c, j);
      }
      LinksChanged(m0, mem, s, t);
      s := t;
    }

    /** The linking step of talloc_steal. */
    method Push(c: Ptr, q: Ptr, ghost ks: seq<Ptr>)
      requires NULL !in mem && c in mem && q in mem && c != q && c !in ks && q !in ks && NULL !in ks
      requires Linked(mem, q, ks)
      modifies this`mem
      ensures Pushed(old(mem), mem, q, ks, c)
    {
      assert ks != [] ==> ks[0] in ks;
      mem := mem[c := mem[c].(parent := q)];
      if mem[q].child != NULL {
        var first := mem[q].child;
        mem := mem[first := mem[first].(parent := NULL)];
      }
      // _TLIST_ADD(new_tc->child, tc)
      if mem[q].child == NULL {
        mem := mem[q := mem[q].(child := c)];
        mem := mem[c := mem[c].(next := NULL, prev := NULL)];
      } else {
        var list := mem[q].child;
        mem := mem[list := mem[list].(prev := c)];
        mem := mem[c := mem[c].(next := list, prev := NULL)];
        mem := mem[q := mem[q].(child := c)];
      }
    }

    method AttachTo(c: Ptr, q: Ptr)
      requires Represents(mem, s) && c in s.loose && (q != NULL ==> q in s.live && q !in s.target && s.rank[q] < s.rank[c])
      modifies this
      ensures Represents(mem, s) && s == Attach(old(s), c, q) && OnlyLinks(old(mem), mem)
      ensures forall d | d in s.loose :: mem[d].prev == old(mem[d].prev)
    {
      hide NoDup, TreeWF, RefsWF, Linked, Siblings, Tops, Stales, RefLists, Marks;
      AttachWF(s, c, q);
      ghost var m0, t := mem, Attach(s, c, q);
      if q == NULL {
        mem := mem[c := mem[c].(parent := NULL, next := NULL, prev := NULL)];
        TreeAttachedTop(m0, mem, s, c);
      } else {
        PlaceToJoin(mem, s, c, q);
        Push(c, q, s.kids[q]);
        TreeAttached(m0, mem, s, c, q);
      }
      LinksChanged(m0, mem, s, t);
      s := t;
    }

    /** __talloc_steal. The chunk must not go below itself. */
    method StealChunk(newCtx: Ptr, ptr: Ptr) returns (r: Ptr)
      requires Represents(mem, s)
      requires ptr != NULL ==> Movable(s, ptr, newCtx) && Untraced(mem, s, ptr)
      modifies this
      ensures Represents(mem, s) && OnlyLinks(old(mem), mem)
      ensures r == ptr
      ensures s == if ptr == NULL || ptr == newCtx then old(s) else Move(old(s), ptr, newCtx)
      ensures forall d | d in s.loose :: mem[d].prev == old(mem[d].prev)
    {
      hide NoDup, TreeWF, RefsWF, Linked, Siblings, Tops, Stales, RefLists, Marks;
      if ptr == NULL { return NULL; }
      if newCtx == NULL {
        Detach(ptr);
        AttachTo(ptr, NULL);
        return ptr;
      }
      if ptr == newCtx || mem[ptr].parent == newCtx {
        if ptr != newCtx {
          ghost var j := Place(mem, s, ptr);
          MoveInPlace(s, ptr, newCtx);
        }
        return ptr;
      }
      Detach(ptr);
      AttachTo(ptr, newCtx);
      return ptr;
    }

    // ----- destructors

    /** talloc_reference_destructor: _TLIST_REMOVE(ptr_tc->refs, handle) */
    method DropHandle(h: Ptr, ghost a: Ptr, ghost hs: seq<Ptr>, ghost j: nat)
      requires NULL !in mem && j < |hs| && hs[j] == h && RefLinked(mem, a, hs) && a !in hs && NoDup(hs)
      modifies this`mem
      ensures Unreferred(old(mem), mem, a, hs, j)
    {
      assert j > 0 ==> hs[j - 1] in hs && hs[j - 1] != h;
      assert j + 1 < |hs| ==> hs[j + 1] in hs && hs[j + 1] != h;
      assert j > 0 && j + 1 < |hs| ==> hs[j - 1] != hs[j + 1];
      assert hs[j] in hs && RefLinkAt(mem, hs, j);
      hide NoDup;
      var tc := mem[h].ptr;
      if h == mem[tc].refs {
        mem := mem[tc := mem[tc].(refs := mem[h].nextRef)];
        var list := mem[tc].refs;
        if list != NULL { mem := mem[list := mem[list].(prevRef := NULL)]; }
      } else {
        var prev, next := mem[h].prevRef, mem[h].nextRef;
        if prev != NULL { mem := mem[prev := mem[prev].(nextRef := next)]; }
        if next != NULL { mem := mem[next := mem[next].(prevRef := prev)]; }
      }
      if h != mem[tc].refs { mem := mem[h := mem[h].(nextRef := NULL, prevRef := NULL)]; }
    }

    /** The part of _talloc_free that runs the destructor. */
    method RunDestructor(ptr: Ptr) returns (r: int)
      requires Represents(mem, s) && ptr in s.live
      modifies this
      ensures Represents(mem, s) && OnlyOwners(old(mem), mem)
      ensures r == if ptr in old(s.veto) then -1 else 0
      ensures r == -1 ==> mem == old(mem)
      ensures s == if ptr in old(s.target) then DropRef(old(s), ptr) else old(s)
    {
      hide NoDup, TreeWF, RefsWF, Siblings, Tops, Stales, RefLists, Without, RefLinked;
      ghost var m0 := mem;
      if mem[ptr].destructor != NoDestructor {
        var d := mem[ptr].destructor;
        if d == Running {
          assert false; // destructors do not call back into the heap
        }
        mem := mem[ptr := mem[ptr].(destructor := Running)];
        ghost var m1 := mem;
        if d == DropReference {
          SlotRefLists(m0, s, ptr, Running);
          ghost var j := RefPlace(m1, s, ptr);
          DropHandle(ptr, s.target[ptr], s.refs[s.target[ptr]], j);
          ghost var m2 := mem;
          mem := mem[ptr := mem[ptr].(destructor := NoDestructor)];
          HandleDropped(m0, m1, m2, mem, s, ptr, j);
          s := DropRef(s, ptr);
          return 0;
        }
        if d == Refuses {
          mem := mem[ptr := mem[ptr].(destructor := d)];
          assert mem == m0;
          return -1;
        }
        mem := mem[ptr := mem[ptr].(destructor := NoDestructor)];
        assert mem == m0[ptr := m0[ptr].(destructor := NoDestructor)];
        assert s.veto == s.veto - {ptr};
        SlotChanged(m0, s, ptr, NoDestructor, s);
      }
      r := 0;
    }

    // ----- freeing

    /** The part of _talloc_free that takes the chunk out of its list. */
    method Unhook(ptr: Ptr)
      requires Valid() && Untraced(mem, s, ptr)
      requires ptr in s.live && ptr !in s.loose && ptr !in s.target && s.up[ptr] !in s.target
      modifies this
      ensures Valid() && s == Unlink(old(s), ptr)
      ensures ptr in mem && mem[ptr].prev == old(mem[ptr].prev)
      ensures forall d | d in old(s.loose) :: mem[d].prev == old(mem[d].prev)
    {
      hide NoDup, TreeWF, RefsWF, Siblings, Tops, Stales, RefLists, Marks;
      Detach(ptr);
      ghost var m := mem;
      mem := mem[ptr := mem[ptr].(loop := true)];
      LoopRepresents(m, s, ptr, true);
    }

    /** The part of _talloc_free that gives the memory back. */
    method Release(ptr: Ptr)
      requires Valid() && ptr in s.loose && WF(Remove(s, ptr)) && ptr !in s.target && s.refs[ptr] == []
      modifies this
      ensures Valid() && s == Remove(old(s), ptr)
      ensures mem == old(mem) - {ptr}
    {
      ReleaseRepresents(mem, s, ptr);
      mem := mem - {ptr};
      s := Remove(s, ptr);
    }

    /** One round of the loop in _talloc_free: the first child of ptr is freed, or
        handed to whoever is to own it. */
    method FreeFirstChild(ptr: Ptr, ghost s1: Forest)
      requires Valid() && Anchored(mem, s) && WF(s1) && ptr in s1.live
      requires Emptying(s1, s, ptr) && s.kids[ptr] != []
      modifies this
      ensures Valid() && Anchored(mem, s) && Emptying(s1, s, ptr) && s.loose == old(s.loose)
      ensures s.live < old(s.live) || (s.live == old(s.live) && |s.kids[ptr]| < old(|s.kids[ptr]|))
      ensures var child := old(s.kids[ptr])[0];
        && child in old(s.live) && child in old(s.refs) && WF(old(s))
        && if child in old(s.target) then s == FreeHandle(old(s), child)
           else if old(s.refs)[child] != [] then
             var h := old(s.refs)[child][0];
             && h in old(s.target) && WF(FreeHandle(old(s), h)) && child in FreeHandle(old(s), h).live
             && old(s.up)[h] in FreeHandle(old(s), h).live && s == Move(FreeHandle(old(s), h), child, old(s.up)[h])
           else if child in old(s.veto) then
             old(s.up)[ptr] in old(s.live) + {NULL} && s == Move(old(s), child, old(s.up)[ptr])
           else child !in s.live
      decreases s.live - s.loose, 1, 0
    {
      hide NoDup, TreeWF, RefsWF, Siblings, Tops, Stales, RefLists, Marks, Without, Ranked, Grounded, TrailClear,
           Freed, Progress, Kept;
      Heads(mem, s, ptr);
      var child := mem[ptr].child;
      Heads(mem, s, child);
      var newParent := NULL;
      if mem[child].refs != NULL {
        newParent := ParentChunk(mem[child].refs);
      }
      ghost var s0 := s;
      if child !in s.target {
        ChildFreeable(s1, s, ptr, child);
        NotInside(s, child);
      }
      var r := Free(child);
      if r == -1 {
        ghost var q;
        if s0.refs[child] != [] {
          HandOn(s1, s0, ptr, child);
          q := s0.up[s0.refs[child][0]];
          EmptyPromoted(s1, s0, ptr, child);
        } else {
          HandUp(s1, s0, ptr, child);
          q := s0.up[ptr];
          EmptyBubbled(s1, s0, ptr, child);
        }
        if newParent == NULL {
          newParent := ParentChunk(ptr);
        }
        assert newParent == q;
        DeepestUntraced(mem, s, child);
        ghost var s2 := s;
        var _ := StealChunk(newParent, child);
        assert s.loose == s2.loose;
      } else if child in s0.target {
        EmptyHandle(s1, s0, ptr, child);
      } else {
        OutcomeGone(s0, child, s);
        EmptyFreed(s1, s0, ptr, child, s);
      }
    }

    /** The loop in _talloc_free. */
    method FreeChildren(ptr: Ptr, ghost s1: Forest)
      requires Valid() && ptr in s.loose
      requires s.kids[ptr] == [] || (Anchored(mem, s) && WF(s1) && ptr in s1.live && Emptying(s1, s, ptr))
      modifies this
      ensures Valid() && s.loose == old(s.loose) && s.kids[ptr] == []
      ensures old(s.kids[ptr]) == [] ==> s == old(s) && mem == old(mem)
      ensures old(s.kids[ptr]) != [] ==> Anchored(mem, s) && Emptying(s1, s, ptr)
      decreases s.live - s.loose, 2, 0
    {
      hide NoDup, TreeWF, RefsWF, Siblings, Tops, Stales, RefLists, Marks, Emptying;
      Heads(mem, s, ptr);
      while mem[ptr].child != NULL
        invariant Valid() && ptr in s.loose && s.loose == old(s.loose) && s.live <= old(s.live)
        invariant mem[ptr].child == Nth(s.kids[ptr], 0)
        invariant old(s.kids[ptr]) == [] ==> s == old(s) && mem == old(mem)
        invariant old(s.kids[ptr]) != [] ==> Anchored(mem, s) && WF(s1) && ptr in s1.live && Emptying(s1, s, ptr)
        decreases s.live, |s.kids[ptr]|
      {
        FreeFirstChild(ptr, s1);
        Heads(mem, s, ptr);
      }
      Heads(mem, s, ptr);
    }

    /** The part of _talloc_free for a chunk without references. */
    method FreeUnreferenced(ptr: Ptr) returns (ret: int)
      requires Valid() && Anchored(mem, s)
      requires ptr in s.live && (ptr in s.target || Freeable(s, ptr)) && s.refs[ptr] == []
      modifies this
      ensures Valid() && Anchored(mem, s) && s.loose == old(s.loose)
      ensures ptr in old(s.target) ==> ret == 0 && s == FreeHandle(old(s), ptr)
      ensures ptr !in old(s.target) ==> FreeOutcome(old(s), ptr, ret, s)
      ensures ret == -1 ==> mem == old(mem)
      decreases s.live - s.loose, 0, 0
    {
      hide NoDup, TreeWF, RefsWF, Siblings, Tops, Stales, RefLists, Marks, Without, Ranked, Grounded, TrailClear,
           FreeOutcome, Freed, Progress, Kept, Freeable, Emptying, Steady;
      ghost var s0, isHandle := s, ptr in s.target;
      FreeUntraced(mem, s, ptr);
      if mem[ptr].loop {
        assert false; // a chunk being freed is in no list
      }
      var d := RunDestructor(ptr);
      if d == -1 {
        OutcomeUnreferenced(s0, ptr, -1, s);
        return -1;
      }
      Unhook(ptr);
      ghost var s1 := s;
      if isHandle {
        FreeHandleWF(s0, ptr);
      } else {
        BeginEmptying(s0, ptr);
      }
      FreeChildren(ptr, s1);
      if !isHandle {
        OutcomeEmptied(s0, ptr, s);
      }
      Release(ptr);
      ret := 0;
    }

    /** _talloc_free */
    method Free(ptr: Ptr) returns (ret: int)
      requires Valid() && Anchored(mem, s)
      requires ptr == NULL || ptr in s.target || Freeable(s, ptr) || (Plain(s, ptr) && Elsewhere(s, ptr))
      modifies this
      ensures Valid() && Anchored(mem, s) && s.loose == old(s.loose)
      ensures ptr == NULL ==> ret == -1 && s == old(s)
      ensures ptr in old(s.target) ==> ret == 0 && s == FreeHandle(old(s), ptr)
      ensures ptr != NULL && ptr !in old(s.target) ==> FreeOutcome(old(s), ptr, ret, s)
      ensures ret == -1 && (ptr == NULL || old(s.refs[ptr]) == []) ==> mem == old(mem)
      decreases s.live - s.loose, 0, 1 + if ptr in s.refs then |s.refs[ptr]| else 0
    {
      hide NoDup, TreeWF, RefsWF, Siblings, Tops, Stales, RefLists, Marks, Without, Ranked, Steady, TrailClear,
           FreeOutcome, Above, Freeable;
      if ptr == NULL { return -1; }
      FreeLive(mem, s, ptr);
      Heads(mem, s, ptr);
      if mem[ptr].refs != NULL {
        var h := mem[ptr].refs;
        FreeUntraced(mem, s, h);
        FirstReference(s, ptr);
        FreeHandleWF(s, h);
        ghost var s0 := s;
        var isChild := IsParent(h, ptr);
        var _ := Free(h);
        assert h in s0.live - s0.loose && s.live - s.loose == (s0.live - s0.loose) - {h};
        if isChild {
          ret := Free(ptr);
          LatestReferenceInside(s0, ptr, ret, s);
        } else {
          ret := -1;
        }
        return;
      }
      ret := FreeUnreferenced(ptr);
    }

    // ----- allocating

    /** The linking step of init_talloc. */
    method LinkNew(tc: Ptr, parent: Ptr, ghost ks: seq<Ptr>)
      requires NULL !in mem && tc in mem && parent in mem && tc != parent && tc !in ks && parent !in ks && NULL !in ks
      requires mem[parent].child == Nth(ks, 0) && forall k {:trigger k in ks} | k in ks :: k in mem
      modifies this`mem
      ensures Pushed(old(mem), mem, parent, ks, tc)
    {
      assert ks != [] ==> ks[0] in ks;
      if mem[parent].child != NULL {
        var first := mem[parent].child;
        mem := mem[first := mem[first].(parent := NULL)];
        mem := mem[tc := mem[tc].(next := first)];
        mem := mem[first := mem[first].(prev := tc)];
      } else {
        mem := mem[tc := mem[tc].(next := NULL)];
      }
      mem := mem[tc := mem[tc].(parent := parent, prev := NULL)];
      mem := mem[parent := mem[parent].(child := tc)];
    }

    /** The part of init_talloc that puts the chunk in its place; m1 is the memory
        with the new chunk's own links filled in. */
    method AttachNew(tc: Ptr, parent: Ptr, ghost m1: Memory)
      requires Represents(m1, s) && tc in s.loose && tc in mem
      requires m1 == mem[tc := mem[tc].(prev := NULL, parent := parent)]
      requires parent != NULL ==> parent in s.live && parent !in s.target && s.rank[parent] < s.rank[tc]
      modifies this
      ensures Represents(mem, s) && s == Attach(old(s), tc, parent) && OnlyLinks(m1, mem)
    {
      hide NoDup, TreeWF, RefsWF, Siblings, Tops, Stales, RefLists, Linked, Marks, Pushed;
      AttachWF(s, tc, parent);
      if parent != NULL {
        PlaceToJoin(m1, s, tc, parent);
        ghost var ks := s.kids[parent];
        ghost var m0 := mem;
        LinkNew(tc, parent, ks);
        PushedOver(m0, m1, mem, parent, ks, tc);
        TreeAttached(m1, mem, s, tc, parent);
      } else {
        mem := mem[tc := mem[tc].(next := NULL, prev := NULL, parent := NULL)];
        TreeAttachedTop(m1, mem, s, tc);
      }
      LinksChanged(m1, mem, s, Attach(s, tc, parent));
      s := Attach(s, tc, parent);
    }

    /** init_talloc; tc is what malloc returned. */
    method InitTalloc(parent: Ptr, tc: Ptr, size: nat) returns (r: Ptr)
      requires Valid() && s.loose == {} && (parent != NULL ==> parent in s.live && parent !in s.target)
      requires tc !in mem
      modifies this
      ensures Valid() && r == tc
      ensures if tc == NULL then s == old(s) && mem == old(mem) else s == Create(old(s), tc, parent, size)
    {
      hide NoDup, TreeWF, RefsWF, Siblings, Tops, Stales, RefLists, Linked, Marks;
      if tc == NULL { return NULL; }
      var raw: Chunk := *;
      mem := mem[tc := raw.(size := size, loop := false, destructor := NoDestructor, child := NULL, refs := NULL)];
      ghost var base := mem[tc].(prev := NULL, parent := parent);
      FreshRepresents(old(mem), s, tc, parent, base);
      s := Fresh(s, tc, parent, size);
      assert mem[tc := base] == old(mem)[tc := base];
      AttachNew(tc, parent, mem[tc := base]);
      r := tc;
    }

    /** __talloc and _talloc_named_const: tc is what malloc would return. */
    method Talloc(context: Ptr, size: nat, tc: Ptr) returns (r: Ptr)
      requires Valid() && s.loose == {} && (context != NULL ==> context in s.live && context !in s.target)
      requires tc !in mem
      modifies this
      ensures Valid() && s.loose == {}
      ensures if size >= MAX_TALLOC_SIZE || tc == NULL then r == NULL && s == old(s) && mem == old(mem)
              else r == tc && s == Create(old(s), tc, context, size)
      ensures size >= 0x1000_0000 ==> r == NULL
      ensures size < 0x1000_0000 ==> r == tc
    {
      hide WF, Represents;
      if size >= MAX_TALLOC_SIZE { return NULL; }
      r := InitTalloc(context, tc, size);
    }

    /** _talloc_set_destructor, with a user destructor or none. */
    method SetDestructor(ptr: Ptr, destructor: Destructor)
      requires Valid() && s.loose == {} && Plain(s, ptr) && destructor != DropReference && destructor != Running
      modifies this
      ensures Valid() && s.loose == {}
      ensures s == old(s).(veto := if destructor == Refuses then old(s.veto) + {ptr} else old(s.veto) - {ptr})
    {
      hide TreeWF, RefsWF, Siblings, Tops, Stales, RefLists;
      ghost var t := s.(veto := if destructor == Refuses then s.veto + {ptr} else s.veto - {ptr});
      SlotChanged(mem, s, ptr, destructor, t);
      mem := mem[ptr := mem[ptr].(destructor := destructor)];
      s := t;
    }

    // ----- references

    /** _TLIST_ADD(tc->refs, handle), after handle->ptr has been set. */
    method AddHandle(h: Ptr, a: Ptr, ghost hs: seq<Ptr>)
      requires NULL !in mem && h in mem && a in mem && h != a && h !in hs && a !in hs && NULL !in hs
      requires RefLinked(mem, a, hs)
      modifies this`mem
      ensures Referred(old(mem), mem, a, hs, h)
    {
      assert hs != [] ==> hs[0] in hs;
      mem := mem[h := mem[h].(ptr := a)];
      if mem[a].refs == NULL {
        mem := mem[a := mem[a].(refs := h)];
        mem := mem[h := mem[h].(nextRef := NULL, prevRef := NULL)];
      } else {
        var list := mem[a].refs;
        mem := mem[list := mem[list].(prevRef := h)];
        mem := mem[h := mem[h].(nextRef := list, prevRef := NULL)];
        mem := mem[a := mem[a].(refs := h)];
      }
    }

    /** _talloc_reference: handle is what malloc would return. */
    method Reference(context: Ptr, ptr: Ptr, handle: Ptr) returns (r: Ptr)
      requires Valid() && s.loose == {} && (context != NULL ==> context in s.live && context !in s.target)
      requires ptr != NULL ==> Plain(s, ptr)
      requires handle !in mem
      modifies this
      ensures Valid() && s.loose == {}
      ensures if ptr == NULL || handle == NULL then r == NULL && s == old(s) && mem == old(mem)
              else r == ptr && s == AddRef(Create(old(s), handle, context, HANDLE_SIZE), handle, ptr)
    {
      hide NoDup, TreeWF, RefsWF, Siblings, Tops, Stales, RefLists, Linked, RefLinked;
      if ptr == NULL { return NULL; }
      var h := Talloc(context, HANDLE_SIZE, handle);
      if h == NULL { return NULL; }
      ghost var m0 := mem;
      NewHandle(mem, s, h, ptr);
      mem := mem[h := mem[h].(destructor := DropReference)];
      SlotRefLists(m0, s, h, DropReference);
      RefListAt(mem, s, ptr);
      AddHandle(h, ptr, s.refs[ptr]);
      HandleAdded(m0, mem, s, h, ptr);
      s := AddRef(s, h, ptr);
      r := ptr;
    }

    /** The loop of talloc_reference_count. */
    method ReferenceCount(ptr: Ptr) returns (n: nat)
      requires Valid() && ptr in s.live
      ensures n == |s.refs[ptr]| == |set h | h in s.target && s.target[h] == ptr|
    {
      RefListAt(mem, s, ptr);
      ghost var hs := s.refs[ptr];
      n := 0;
      var h := mem[ptr].refs;
      while h != NULL
        invariant n <= |hs| && h == Nth(hs, n)
        decreases |hs| - n
      {
        HandleAt(mem, s, ptr, n);
        h := mem[h].nextRef;
        n := n + 1;
      }
      if n < |hs| { HandleAt(mem, s, ptr, n); }
      HandlesCounted(s, ptr);
    }

    // ----- operations of the library

    /** _talloc_steal */
    method Steal(newCtx: Ptr, ptr: Ptr) returns (r: Ptr)
      requires Valid() && s.loose == {}
      requires (ptr != NULL ==> Plain(s, ptr)) && (newCtx != NULL ==> Plain(s, newCtx))
      requires ptr != NULL && newCtx != NULL && newCtx != ptr ==> !Above(s, ptr, newCtx)
      modifies this
      ensures Valid() && s.loose == {} && r == ptr
      ensures ptr != NULL ==> Stolen(old(s), newCtx, ptr, s)
      ensures ptr != NULL && ptr != newCtx ==> s.(rank := old(s.rank)) == Move(old(s), ptr, newCtx)
      ensures ptr != NULL && ptr != newCtx ==>
                && WeightsShifted(old(s), old(s.size), ptr, newCtx, s)
                && WeightsShifted(old(s), Ones(old(s)), ptr, newCtx, s)
      ensures ptr == NULL ==> s == old(s)
    {
      hide NoDup, TreeWF, RefsWF, Siblings, Tops, Stales, RefLists, Linked, Marks;
      ghost var s0 := s;
      if ptr != NULL && newCtx != NULL && newCtx != ptr {
        LiftedWF(s, ptr, newCtx);
        RankRepresents(mem, s, Lifted(s, ptr, newCtx));
        s := Lifted(s, ptr, newCtx);
      }
      if ptr != NULL { ParentPlain(s, ptr); }
      r := StealChunk(newCtx, ptr);
      if ptr != NULL && ptr != newCtx {
        StealShiftsAll(s0, s0.size, ptr, newCtx, s);
        StealShiftsAll(s0, Ones(s0), ptr, newCtx, s);
      }
    }

    /** talloc_free */
    method TallocFree(ptr: Ptr) returns (ret: int)
      requires Valid() && s.loose == {}
      requires ptr != NULL ==> CanFree(s, ptr)
      modifies this
      ensures Valid() && s.loose == {}
      ensures ptr == NULL ==> ret == -1 && s == old(s) && mem == old(mem)
      ensures ptr != NULL ==> FreeCall(old(s), ptr, ret, s) && ret in {0, -1}
      ensures ret == 0 ==> ptr !in s.live && PlainChunks(s) == Kept(old(s), {ptr})
      ensures s.live <= old(s.live)
      ensures ret == 0 ==> forall x {:trigger s.up[x]} {:trigger s.refs[x]} | x in s.live && x !in old(s.target) ::
                var stay := s.live + {NULL};
                var hs := Held(old(s), old(s.refs)[x], stay);
                if old(s.up)[x] in stay then s.up[x] == old(s.up)[x] && s.refs[x] == hs
                else if hs != [] then hs[0] in old(s.up) && s.up[x] == old(s.up)[hs[0]] && s.refs[x] == hs[1..]
                else s.up[x] == old(s.up)[ptr] && x in old(s.veto) && s.refs[x] == []
      ensures ptr != NULL ==>
                var hs, i := old(s.refs[ptr]), FirstElsewhere(old(s), ptr, 0);
                if i < |hs| then
                  ret == -1 && ptr in s.refs && s.refs[ptr] == hs[i + 1..] && s.up == old(s.up)
                  && s.live == old(s.live) - Members(hs[..i + 1])
                else if ptr in old(s.veto) then
                  ret == -1 && ptr in s.refs && s.refs[ptr] == [] && s.up == old(s.up)
                  && s.live == old(s.live) - Members(hs)
                else ret == 0
      ensures ptr != NULL && old(s.refs[ptr]) == [] ==>
                if ptr in old(s.veto) then ret == -1 && mem == old(mem) && s.(rank := old(s.rank)) == old(s) else ret == 0
      ensures ptr != NULL && old(s.refs[ptr]) != [] ==>
                var h := old(s.refs[ptr])[0];
                && h in old(s.target) && WF(FreeHandle(old(s), h))
                && (ret == -1 && s.(rank := old(s.rank)) == FreeHandle(old(s), h) <==>
                    !Above(old(s), ptr, h) || (|old(s.refs[ptr])| == 1 && ptr in old(s.veto)))
    {
      hide NoDup, TreeWF, RefsWF, Siblings, Tops, Stales, RefLists, Linked, Marks, FreeOutcome, Acyclic, Order, Held, Kept,
           Above, Members;
      if ptr == NULL { return -1; }
      ghost var s0, s1 := s, s;
      if !Elsewhere(s, ptr) {
        CanFreeFacts(s, ptr);
        SortedFreeable(s, ptr);
        s1 := Sorted(s, ptr);
        RankRepresents(mem, s, s1);
        s := s1;
      }
      ret := Free(ptr);
      OutcomeFewer(s1, ptr, ret, s);
      assert RankedAs(s0, s) == s1;
      ReturnsEither(s1, ptr, ret, s);
      if ret == 0 {
        FreedIsReachability(s0, ptr, s);
        HeirsInOrder(s0, ptr, s);
      }
      ReferencesGo(s0, ptr, ret, s);
      if s0.refs[ptr] == [] {
        OutcomeFacts(s1, ptr, ret, s);
      } else {
        OnlyLatestGoes(s0, ptr, ret, s);
      }
    }

    /** talloc_unreference */
    method Unreference(context: Ptr, ptr: Ptr) returns (ret: int)
      requires Valid() && s.loose == {} && Plain(s, ptr)
      modifies this
      ensures Valid() && s.loose == {}
      ensures var h := FirstHeld(old(s), context, old(s.refs[ptr]));
              if h == NULL then ret == -1 && s == old(s) && mem == old(mem)
              else ret == 0 && h in old(s.target) && old(s.target)[h] == ptr && old(s.up)[h] == context && s == FreeHandle(old(s), h)
      ensures var hs, i := old(s.refs[ptr]), FirstOf(old(s), context, old(s.refs[ptr]), 0);
              if i == |hs| then ret == -1 && s == old(s) && mem == old(mem)
              else
                && ret == 0 && s.live == old(s.live) - {hs[i]} && s.target == old(s.target) - {hs[i]}
                && s.refs == old(s.refs)[ptr := hs[..i] + hs[i + 1..]]
                && s.up == old(s.up) && s.veto == old(s.veto) && s.size == old(s.size)
    {
      hide NoDup, TreeWF, RefsWF, Siblings, Tops, Stales, RefLists, Linked, Without, FreeHandle;
      ghost var at := FirstOf(s, context, s.refs[ptr], 0);
      FirstHeldAt(s, context, s.refs[ptr], at);
      if at < |s.refs[ptr]| { HandleAtIndex(s, ptr, at); HandleNotNull(s, ptr, at); }
      RefListAt(mem, s, ptr);
      HeldIffFound(s, context, ptr);
      ghost var hs, n := s.refs[ptr], 0;
      var h := mem[ptr].refs;
      while h != NULL
        invariant s == old(s) && mem == old(mem)
        invariant n <= |hs| && h == Nth(hs, n)
        invariant FirstHeld(s, context, hs) == FirstHeld(s, context, hs[n..])
        decreases |hs| - n
      {
        HandleAt(mem, s, ptr, n);
        var p := ParentChunk(h);
        if p == NULL {
          if context == NULL { break; }
        } else if p == context {
          break;
        }
        h := mem[h].nextRef;
        n := n + 1;
      }
      if n < |hs| { HandleAt(mem, s, ptr, n); }
      if h == NULL { return -1; }
      ret := Free(h);
    }

    /** talloc_unlink */
    method TallocUnlink(context: Ptr, ptr: Ptr) returns (ret: int)
      requires Valid() && s.loose == {}
      requires ptr != NULL ==> Plain(s, ptr) && Unlinkable(s, context, ptr)
      modifies this
      ensures Valid() && s.loose == {}
      ensures ptr != NULL ==> Unlinked(old(s), context, ptr, ret, s)
      ensures ptr != NULL ==>
                var hs, i := old(s.refs[ptr]), FirstOf(old(s), context, old(s.refs[ptr]), 0);
                if i < |hs| then
                  && ret == 0 && s.live == old(s.live) - {hs[i]} && s.target == old(s.target) - {hs[i]}
                  && s.refs == old(s.refs)[ptr := hs[..i] + hs[i + 1..]]
                  && s.up == old(s.up) && s.veto == old(s.veto) && s.size == old(s.size)
                else if old(s.up)[ptr] != context then ret == -1 && s == old(s) && mem == old(mem)
                else hs != [] ==>
                  && ret == 0 && s.live == old(s.live) - {hs[0]} && s.target == old(s.target) - {hs[0]}
                  && s.refs == old(s.refs)[ptr := hs[1..]]
                  && hs[0] in old(s.up) && s.up == old(s.up)[ptr := old(s.up)[hs[0]]]
                  && s.veto == old(s.veto) && s.size == old(s.size)
      ensures ptr == NULL || Shares(old(s), context, ptr) == 0 ==> ret == -1 && s == old(s) && mem == old(mem)
      ensures ptr != NULL && Shares(old(s), context, ptr) > 0 ==>
                if old(s.refs[ptr]) != [] then ret == 0 && OneOwnerLess(old(s), context, ptr, s)
                else if ptr in old(s.veto) then ret == -1 && mem == old(mem) && s.(rank := old(s.rank)) == old(s)
                else ret == 0 && ptr !in s.live && PlainChunks(s) == Kept(old(s), {ptr})
    {
      hide NoDup, TreeWF, RefsWF, Siblings, Tops, Stales, RefLists, Linked, Marks, FreeOutcome, Acyclic, Shares,
           OneOwnerLess, TrailClear, NullsApart;
      if ptr == NULL { return -1; }
      ghost var s0 := s;
      ghost var at := FirstOf(s, context, s.refs[ptr], 0);
      FirstHeldAt(s, context, s.refs[ptr], at);
      SharesFound(s, context, ptr);
      Heads(mem, s, ptr);
      var r := Unreference(context, ptr);
      if r == 0 {
        HandleOwnerLess(s0, FirstHeld(s0, context, s0.refs[ptr]));
        return 0;
      }
      var parent := ParentChunk(ptr);
      if context == NULL {
        if parent != NULL { return -1; }
      } else {
        if context != parent { return -1; }
      }
      if mem[ptr].refs == NULL {
        ret := TallocFree(ptr);
        return;
      }
      ghost var h := s.refs[ptr][0];
      var newParent := ParentChunk(mem[ptr].refs);
      FreeHandleWF(s, h);
      var u := Unreference(newParent, ptr);
      if u != 0 {
        assert false; // the holder of the first reference holds a reference
      }
      ghost var s1 := s;
      if newParent != NULL && Above(s1, ptr, newParent) { AboveFewer(s0, s1, ptr, newParent); }
      HolderStays(s0, h);
      ParentPlain(s1, ptr);
      var _ := Steal(newParent, ptr);
      ParentOwnerLess(s0, ptr, h);
      OwnerLessSame(s0, context, ptr, Move(s1, ptr, newParent), s);
      HandedOver(s0, ptr, s);
      ret := 0;
    }

    // ----- summing up
    /** _talloc_total_size; busy are the chunks that are being summed up or freed. */
    method TotalSize(ptr: Ptr, ghost busy: set<Ptr>) returns (total: nat)
      requires Represents(mem, s) && s.loose == {} && ptr in s.live && Flags(mem, busy)
      requires forall b {:trigger b in busy} | b in busy :: b in s.live && s.rank[b] <= s.rank[ptr]
      modifies this
      ensures mem == old(mem) && s == old(s)
      ensures total == if ptr in busy then 0 else Total(s, s.size, ptr)
      decreases Deeper(s, ptr)
    {
      hide NoDup, TreeWF, RefsWF, Siblings, Tops, Stales, RefLists, Marks, Sum, UnderKids, Under, Deeper;
      if mem[ptr].loop { return 0; }
      ghost var m0, w, n := mem, s.size, 0;
      ghost var ks := s.kids[ptr];
      TotalSplit(s, w, ptr);
      Heads(mem, s, ptr);
      SizeAt(mem, s, ptr);
      mem := mem[ptr := mem[ptr].(loop := true)];
      LoopRepresents(m0, s, ptr, true);
      total := mem[ptr].size;
      var c := mem[ptr].child;
      while c != NULL
        invariant s == old(s) && mem == m0[ptr := m0[ptr].(loop := true)]
        invariant n <= |ks| && c == Nth(ks, n)
        invariant total == Weight(w, ptr) + Sum(w, UnderKids(s, ptr, n))
        decreases |ks| - n
      {
        KidDeeper(s, ptr, n);
        KidAt(mem, s, ptr, n);
        var sub := TotalSize(c, busy + {ptr});
        UnderKidsGrow(s, w, ptr, n);
        total := total + sub;
        c := mem[c].next;
        n := n + 1;
      }
      if n < |ks| { KidDeeper(s, ptr, n); }
      mem := mem[ptr := mem[ptr].(loop := false)];
      assert mem == m0;
    }

    /** _talloc_total_blocks; busy are the chunks that are being summed up or freed. */
    method TotalBlocks(ptr: Ptr, ghost busy: set<Ptr>) returns (total: nat)
      requires Represents(mem, s) && s.loose == {} && ptr in s.live && Flags(mem, busy)
      requires forall b {:trigger b in busy} | b in busy :: b in s.live && s.rank[b] <= s.rank[ptr]
      modifies this
      ensures mem == old(mem) && s == old(s)
      ensures total == if ptr in busy then 0 else |Under(s, ptr)|
      decreases Deeper(s, ptr)
    {
      hide NoDup, TreeWF, RefsWF, Siblings, Tops, Stales, RefLists, Marks, Sum, UnderKids, Under, Deeper;
      if mem[ptr].loop { return 0; }
      ghost var m0, w, n := mem, Ones(s), 0;
      ghost var ks := s.kids[ptr];
      TotalSplit(s, w, ptr);
      Heads(mem, s, ptr);
      SizeAt(mem, s, ptr);
      mem := mem[ptr := mem[ptr].(loop := true)];
      LoopRepresents(m0, s, ptr, true);
      total := 1;
      var c := mem[ptr].child;
      while c != NULL
        invariant s == old(s) && mem == m0[ptr := m0[ptr].(loop := true)]
        invariant n <= |ks| && c == Nth(ks, n)
        invariant total == Weight(w, ptr) + Sum(w, UnderKids(s, ptr, n))
        decreases |ks| - n
      {
        KidDeeper(s, ptr, n);
        KidAt(mem, s, ptr, n);
        var sub := TotalBlocks(c, busy + {ptr});
        UnderKidsGrow(s, w, ptr, n);
        UnderLive(s, ks[n]);
        SumOnes(s, Under(s, ks[n]));
        total := total + sub;
        c := mem[c].next;
        n := n + 1;
      }
      if n < |ks| { KidDeeper(s, ptr, n); }
      UnderLive(s, ptr);
      SumOnes(s, Under(s, ptr));
      mem := mem[ptr := mem[ptr].(loop := false)];
      assert mem == m0;
    }

    // ----- reallocating

    /** The relinking steps of _talloc_realloc: parent and first child are told that
        the chunk is at tc. */
    method PatchUpDown(tc: Ptr)
      requires tc in mem && mem[tc].parent != tc && mem[tc].child != tc && NULL !in mem
      requires (mem[tc].parent != NULL ==> mem[tc].parent in mem) && (mem[tc].child != NULL ==> mem[tc].child in mem)
      modifies this`mem
      ensures ToldUpDown(old(mem), mem, tc)
    {
      if mem[tc].parent != NULL {
        var parent := mem[tc].parent;
        mem := mem[parent := mem[parent].(child := tc)];
      }
      if mem[tc].child != NULL {
        var child := mem[tc].child;
        mem := mem[child := mem[child].(parent := tc)];
      }
    }

    /** So are the siblings next to it. */
    method PatchSides(tc: Ptr)
      requires tc in mem && mem[tc].prev != tc && mem[tc].next != tc && NULL !in mem
      requires (mem[tc].prev != NULL ==> mem[tc].prev in mem) && (mem[tc].next != NULL ==> mem[tc].next in mem)
      modifies this`mem
      ensures ToldSides(old(mem), mem, tc)
    {
      if mem[tc].prev != NULL {
        var prev := mem[tc].prev;
        mem := mem[prev := mem[prev].(next := tc)];
      }
      if mem[tc].next != NULL {
        var next := mem[tc].next;
        mem := mem[next := mem[next].(prev := tc)];
      }
    }

    method Patch(tc: Ptr, size: nat, ghost m0: Memory, ghost a: Ptr)
      requires NULL !in m0 && tc != NULL && PointedBack(m0, a)
      requires if tc == a then mem == m0 else tc !in m0 && mem == (m0 - {a})[tc := m0[a]]
      modifies this`mem
      ensures if tc == a then mem == m0[a := m0[a].(size := size)] else Patched(m0, mem, a, tc, size)
    {
      hide ToldUpDown, ToldSides;
      ghost var m1 := mem;
      PatchUpDown(tc);
      ghost var m2 := mem;
      PatchSides(tc);
      if tc == a { ToldInPlace(m0, m2, mem, a); } else { ToldMoved(m0, m1, m2, mem, a, tc, size); }
      mem := mem[tc := mem[tc].(size := size)];
    }

    /** _talloc_realloc; newPtr is what malloc or realloc would return. */
    method Realloc(context: Ptr, ptr: Ptr, size: nat, newPtr: Ptr) returns (r: Ptr)
      requires Valid() && s.loose == {} && (ptr != NULL ==> Plain(s, ptr))
      requires newPtr !in mem || newPtr == ptr
      requires ptr == NULL ==> context == NULL || (context in s.live && context !in s.target)
      requires size == 0 && ptr != NULL ==> CanFree(s, ptr)
      modifies this
      ensures Valid() && s.loose == {}
      ensures size == 0 ==> r == NULL && if ptr == NULL then s == old(s) && mem == old(mem)
                else exists ret :: FreeCall(old(s), ptr, ret, s)
      ensures size >= MAX_TALLOC_SIZE ==> r == NULL && s == old(s) && mem == old(mem)
      ensures size >= 0x1000_0000 ==> r == NULL
      ensures 0 < size < 0x1000_0000 && (ptr != NULL ==> old(s.refs[ptr]) == []) ==> r == newPtr
      ensures 0 < size < MAX_TALLOC_SIZE && ptr == NULL ==>
                r == newPtr && s == if newPtr == NULL then old(s) else Create(old(s), newPtr, context, size)
      ensures 0 < size < MAX_TALLOC_SIZE && ptr != NULL ==>
                if old(s.refs[ptr]) != [] || newPtr == NULL then r == NULL && s == old(s) && mem == old(mem)
                else
                  && r == newPtr
                  && if newPtr == ptr then s == old(s).(size := old(s.size)[ptr := size])
                     else newPtr !in old(s.live) && s == Renamed(old(s), ptr, newPtr, size)
    {
      hide NoDup, TreeWF, RefsWF, Siblings, Tops, Stales, RefLists, Marks, Renamed, FreeOutcome, Acyclic, Order;
      if size == 0 {
        var _ := TallocFree(ptr);
        return NULL;
      }
      if size >= MAX_TALLOC_SIZE { return NULL; }
      if ptr == NULL {
        r := Talloc(context, size, newPtr);
        return;
      }
      Heads(mem, s, ptr);
      if mem[ptr].refs != NULL { return NULL; }
      if newPtr == NULL { return NULL; }
      ghost var m0, s0 := mem, s;
      Neighbours(mem, s, ptr);
      hide Patched;
      if newPtr != ptr {
        mem := (mem - {ptr})[newPtr := mem[ptr]];
      }
      Patch(newPtr, size, m0, ptr);
      if newPtr == ptr {
        ResizedRepresents(m0, s, ptr, size);
        s := s.(size := s.size[ptr := size]);
      } else {
        ghost var j := RenamedPlace(m0, s0, ptr);
        RenamedRepresents(m0, mem, s0, ptr, newPtr, size, j);
        RenamedAt(s0, ptr, newPtr, size, newPtr);
        s := Renamed(s, ptr, newPtr, size);
      }
      r := newPtr;
    }
  }
}
