/** Who inherits a chunk whose parent goes: the order among its owners. */
module Heirs {
  import opened Forests
  import opened Ownership

  /** The handles of hs whose holders are among `stay`, in their order. */
  ghost function Held(s: Forest, hs: seq<Ptr>, stay: set<Ptr>): seq<Ptr> {
    if hs == [] then []
    else (if hs[0] in s.up && s.up[hs[0]] in stay then [hs[0]] else []) + Held(s, hs[1..], stay)
  }

  /** Who can own in t: the chunks that are not being freed, and the top level. */
  ghost function Staying(t: Forest): set<Ptr> {
    t.live - t.loose + {NULL}
  }

  /** From s to t: the parent of x stays, and so do its references with holders that
      stay; or the first such holder has become the parent; or, if there is none, q has. */
  ghost predicate PlaceKept(s: Forest, t: Forest, q: Ptr, x: Ptr)
    requires x in s.up && x in s.refs && x in t.up && x in t.refs
  {
    var hs, gs := Held(s, s.refs[x], Staying(t)), Held(t, t.refs[x], Staying(t));
    if s.up[x] in Staying(t) then t.up[x] == s.up[x] && gs == hs
    else if t.up[x] !in Staying(t) then gs == hs
    else if hs != [] then hs[0] in s.up && t.up[x] == s.up[hs[0]] && gs == hs[1..]
    else t.up[x] == q && x in s.veto && gs == []
  }

  ghost predicate PlacesKept(s: Forest, t: Forest, q: Ptr)
    requires Keyed(s) && Keyed(t) && t.live <= s.live
  {
    forall x {:trigger PlaceKept(s, t, q, x)} | Plain(t, x) && x !in t.loose :: PlaceKept(s, t, q, x)
  }

  /** The handles that are left are what they were. */
  ghost predicate HandlesKept(s: Forest, t: Forest)
    requires Keyed(s) && Keyed(t) && t.live <= s.live
  {
    && (forall h {:trigger h in t.target} | h in t.target :: h in s.target && t.target[h] == s.target[h] && t.up[h] == s.up[h])
    && (forall h {:trigger h in s.target} | h in s.target && h in t.live :: h in t.target)
  }

  // ----- held handles

  lemma {:induction false} HeldMembers(s: Forest, hs: seq<Ptr>, stay: set<Ptr>)
    ensures forall h :: h in Held(s, hs, stay) <==> h in hs && h in s.up && s.up[h] in stay
  {
    if hs != [] {
      HeldMembers(s, hs[1..], stay);
      assert hs == [hs[0]] + hs[1..];
    }
  }

  /** Where up agrees on the handles and `stay` and `rest` agree on the holders. */
  lemma {:induction false} HeldSame(s: Forest, t: Forest, hs: seq<Ptr>, stay: set<Ptr>, rest: set<Ptr>)
    requires forall h | h in hs ::
      h in s.up && h in t.up && s.up[h] == t.up[h] && (s.up[h] in stay <==> s.up[h] in rest)
    ensures Held(s, hs, stay) == Held(t, hs, rest)
  {
    if hs != [] {
      assert hs[0] in hs && forall h | h in hs[1..] :: h in hs;
      HeldSame(s, t, hs[1..], stay, rest);
    }
  }

  /** Fewer and fewer stay. */
  lemma {:induction false} HeldTwice(s: Forest, hs: seq<Ptr>, stay: set<Ptr>, fewer: set<Ptr>)
    requires fewer <= stay
    ensures Held(s, Held(s, hs, stay), fewer) == Held(s, hs, fewer)
  {
    if hs != [] {
      HeldTwice(s, hs[1..], stay, fewer);
      var rest := Held(s, hs[1..], stay);
      assert ([hs[0]] + rest)[1..] == rest && [] + rest == rest;
    }
  }

  lemma {:induction false} HeldAll(s: Forest, hs: seq<Ptr>, stay: set<Ptr>)
    requires forall h | h in hs :: h in s.up && s.up[h] in stay
    ensures Held(s, hs, stay) == hs
  {
    if hs != [] {
      assert hs[0] in hs && forall h | h in hs[1..] :: h in hs;
      HeldAll(s, hs[1..], stay);
    }
  }

  /** A handle that is not held anyway is not missed. */
  lemma {:induction false} HeldWithout(s: Forest, hs: seq<Ptr>, h: Ptr, stay: set<Ptr>)
    requires !(h in s.up && s.up[h] in stay)
    ensures Held(s, Without(hs, h), stay) == Held(s, hs, stay)
  {
    if hs != [] && hs[0] != h {
      HeldWithout(s, hs[1..], h, stay);
      assert Without(hs, h)[1..] == Without(hs[1..], h);
    }
  }

  /** The first handle with a holder that stays is the first that is held. */
  lemma {:induction false} HeldFirst(s: Forest, hs: seq<Ptr>, stay: set<Ptr>, i: nat)
    requires i < |hs| && hs[i] in s.up && s.up[hs[i]] in stay
    requires forall j | 0 <= j < i :: !(hs[j] in s.up && s.up[hs[j]] in stay)
    ensures Held(s, hs, stay) == [hs[i]] + Held(s, hs[i + 1..], stay)
  {
    if i > 0 {
      forall j | 0 <= j < i - 1 ensures !(hs[1..][j] in s.up && s.up[hs[1..][j]] in stay) {
        assert hs[1..][j] == hs[j + 1];
      }
      HeldFirst(s, hs[1..], stay, i - 1);
      assert hs[1..][i..] == hs[i + 1..];
    }
  }

  /** Whatever is held keeps its order. */
  lemma {:induction false} HeldInOrder(s: Forest, hs: seq<Ptr>, stay: set<Ptr>, a: nat, b: nat) returns (i: nat, j: nat)
    requires a < b < |Held(s, hs, stay)|
    ensures i < j < |hs| && hs[i] == Held(s, hs, stay)[a] && hs[j] == Held(s, hs, stay)[b]
  {
    var rest := Held(s, hs[1..], stay);
    var n := if hs[0] in s.up && s.up[hs[0]] in stay then 1 else 0;
    if n == 1 && a == 0 {
      HeldMembers(s, hs[1..], stay);
      assert rest[b - 1] in rest;
      i := 0;
      j :| 1 <= j < |hs| && hs[j] == rest[b - 1];
    } else {
      i, j := HeldInOrder(s, hs[1..], stay, a - n, b - n);
      i, j := i + 1, j + 1;
    }
  }

  // ----- places

  /** Handles on a list hang off the same chunk before and after. */
  lemma SameHolders(s: Forest, t: Forest, x: Ptr)
    requires WF(s) && WF(t) && t.live <= s.live && HandlesKept(s, t) && x in t.live
    ensures forall h {:trigger h in t.refs[x]} | h in t.refs[x] :: h in s.up && h in t.up && s.up[h] == t.up[h]
    ensures x in s.up && x in s.refs && x in t.up && x in t.refs
    ensures forall h {:trigger h in s.refs[x]} | h in s.refs[x] :: h in s.up
  {
  }

  lemma PlacesNone(s: Forest, q: Ptr)
    requires WF(s)
    ensures PlacesKept(s, s, q)
  {
    hide NoDup, TreeWF, RefsWF, Held;
    forall x {:trigger PlaceKept(s, s, q, x)} | Plain(s, x) && x !in s.loose ensures PlaceKept(s, s, q, x) {}
  }

  /** What is held of the lists of x in s and t when fewer stay. */
  lemma HeldLater(s: Forest, t: Forest, x: Ptr, stay: set<Ptr>, fewer: set<Ptr>)
    requires x in s.refs && x in t.refs && fewer <= stay
    requires forall h {:trigger h in t.refs[x]} | h in t.refs[x] :: h in s.up && h in t.up && s.up[h] == t.up[h]
    ensures var hs, gs := Held(s, s.refs[x], stay), Held(t, t.refs[x], stay);
      var hs', gs' := Held(s, s.refs[x], fewer), Held(t, t.refs[x], fewer);
      && (gs == hs ==> gs' == hs')
      && (hs != [] ==> hs[0] in s.up)
      && (hs != [] && gs == hs[1..] ==>
            if s.up[hs[0]] in fewer then hs' != [] && hs'[0] == hs[0] && gs' == hs'[1..] else gs' == hs')
      && (hs == [] ==> hs' == []) && (gs == [] ==> gs' == [])
      && (gs' != [] ==> gs'[0] in s.up && gs'[0] in t.up && s.up[gs'[0]] == t.up[gs'[0]])
  {
    var hs, gs := Held(s, s.refs[x], stay), Held(t, t.refs[x], stay);
    HeldTwice(s, s.refs[x], stay, fewer);
    HeldTwice(t, t.refs[x], stay, fewer);
    HeldMembers(s, s.refs[x], stay);
    HeldMembers(t, t.refs[x], stay);
    HeldMembers(t, t.refs[x], fewer);
    HeldSame(t, s, gs, fewer, fewer);
    if Held(t, t.refs[x], fewer) != [] {
      assert Held(t, t.refs[x], fewer)[0] in Held(t, t.refs[x], fewer);
    }
    if hs != [] {
      assert hs[0] in hs;
      assert ([hs[0]] + Held(s, hs[1..], fewer))[1..] == Held(s, hs[1..], fewer);
    }
  }

  lemma PlaceTrans(s: Forest, t: Forest, u: Forest, q: Ptr, x: Ptr)
    requires WF(s) && WF(t) && WF(u) && t.live <= s.live && u.live <= t.live && u.loose == t.loose == s.loose && t.veto == s.veto
    requires HandlesKept(s, t) && HandlesKept(t, u) && x in u.live
    requires x in s.up && x in s.refs && PlaceKept(s, t, q, x) && PlaceKept(t, u, q, x)
    ensures PlaceKept(s, u, q, x)
  {
    hide NoDup, TreeWF, RefsWF, HandlesKept, Held;
    SameHolders(s, t, x);
    HeldLater(s, t, x, Staying(t), Staying(u));
  }

  lemma PlainBefore(s: Forest, t: Forest)
    requires Keyed(s) && Keyed(t) && t.live <= s.live && HandlesKept(s, t)
    ensures forall x {:trigger Plain(t, x)} | Plain(t, x) :: Plain(s, x)
  {
  }

  lemma PlacesTrans(s: Forest, t: Forest, u: Forest, q: Ptr)
    requires WF(s) && WF(t) && WF(u) && t.live <= s.live && u.live <= t.live && u.loose == t.loose == s.loose && t.veto == s.veto
    requires HandlesKept(s, t) && HandlesKept(t, u) && PlacesKept(s, t, q) && PlacesKept(t, u, q)
    ensures PlacesKept(s, u, q)
  {
    hide NoDup, TreeWF, RefsWF, PlaceKept, HandlesKept;
    PlainBefore(s, t);
    PlainBefore(t, u);
    forall x {:trigger PlaceKept(s, u, q, x)} | Plain(u, x) && x !in u.loose ensures PlaceKept(s, u, q, x) {
      assert Plain(t, x) && PlaceKept(s, t, q, x) && PlaceKept(t, u, q, x);
      PlaceTrans(s, t, u, q, x);
    }
  }

  lemma PlacesUp(s: Forest, t: Forest, p: Ptr, q: Ptr)
    requires WF(s) && WF(t) && t.live <= s.live && t.loose == s.loose && PlacesKept(s, t, p) && p in s.loose
    ensures PlacesKept(s, t, q)
  {
    hide NoDup, TreeWF, RefsWF, Held;
    forall x {:trigger PlaceKept(s, t, q, x)} | Plain(t, x) && x !in t.loose ensures PlaceKept(s, t, q, x) {
      assert PlaceKept(s, t, p, x);
    }
  }

  /** Freeing a handle of a chunk that is being freed. */
  lemma PlacesHandle(s: Forest, h: Ptr, q: Ptr)
    requires WF(s) && h in s.target && s.up[h] in s.loose && WF(FreeHandle(s, h))
    ensures PlacesKept(s, FreeHandle(s, h), q)
  {
    var t := FreeHandle(s, h);
    forall x {:trigger PlaceKept(s, t, q, x)} | Plain(t, x) && x !in t.loose ensures PlaceKept(s, t, q, x) {
      HandlePlace(s, h, q, x);
    }
  }

  lemma HandleUp(s: Forest, h: Ptr)
    requires WF(s) && h in s.target
    ensures h in s.up && (s.up[h] != NULL ==> s.up[h] in s.kids) && s.target[h] in s.refs && h in s.live
    ensures h !in s.loose && h != NULL
  {
  }

  /** What the free of h changes. */
  lemma HandleFields(s: Forest, h: Ptr)
    requires h in s.up && (s.up[h] != NULL ==> s.up[h] in s.kids) && h in s.target && s.target[h] in s.refs
    requires h !in s.loose && h != NULL
    ensures var t := FreeHandle(s, h);
      && t.up == s.up && t.loose == s.loose && t.live == s.live - {h} && t.target == s.target - {h}
      && t.refs == s.refs[s.target[h] := Without(s.refs[s.target[h]], h)] && Staying(t) == Staying(s) - {h}
  {
    hide Without;
  }

  lemma HandleLists(s: Forest, h: Ptr, x: Ptr)
    requires WF(s) && h in s.target && WF(FreeHandle(s, h)) && Plain(FreeHandle(s, h), x)
    ensures var t := FreeHandle(s, h);
      && Plain(s, x) && x in s.refs && x in t.refs && x in s.up && t.up == s.up && t.loose == s.loose
      && Staying(t) == Staying(s) - {h}
      && t.refs[x] == (if x == s.target[h] then Without(s.refs[x], h) else s.refs[x])
  {
    hide NoDup, Without, TreeWF, RefsWF, Staying, FreeHandle;
    HandleUp(s, h);
    HandleFields(s, h);
  }

  /** A handle owns nothing. */
  lemma HandleLeaf(s: Forest, h: Ptr, x: Ptr)
    requires WF(s) && h in s.target && Plain(s, x) && x !in s.loose
    ensures s.up[x] != h && h != NULL && forall g | g in s.refs[x] :: g in s.up && s.up[g] != h
  {
    hide NoDup;
    assert s.up[x] != NULL ==> x in s.kids[s.up[x]];
    forall g | g in s.refs[x] ensures g in s.up && s.up[g] != h {
      assert g in s.target;
      assert s.up[g] != NULL ==> g in s.kids[s.up[g]];
    }
  }

  lemma HandlePlace(s: Forest, h: Ptr, q: Ptr, x: Ptr)
    requires WF(s) && h in s.target && s.up[h] in s.loose && WF(FreeHandle(s, h))
    requires Plain(FreeHandle(s, h), x) && x !in s.loose
    ensures PlaceKept(s, FreeHandle(s, h), q, x)
  {
    hide NoDup, Held, Without;
    var t := FreeHandle(s, h);
    HandleLists(s, h, x);
    HandleLeaf(s, h, x);
    var k := Staying(t);
    HeldWithout(s, s.refs[x], h, k);
    HeldUp(s, t, t.refs[x], k);
  }

  lemma {:induction false} HeldUp(s: Forest, t: Forest, hs: seq<Ptr>, k: set<Ptr>)
    requires t.up == s.up
    ensures Held(t, hs, k) == Held(s, hs, k)
  {
    if hs != [] { HeldUp(s, t, hs[1..], k); }
  }

  /** What a move changes: the parent of c and nothing else here. */
  lemma MovePlaces(s: Forest, c: Ptr, q: Ptr)
    requires WF(s) && c in s.live && c !in s.loose && s.up[c] in s.live + {NULL} && (q != NULL ==> q in s.live)
    ensures var u := Move(s, c, q);
      && u.live == s.live && u.refs == s.refs && u.target == s.target && u.loose == s.loose
      && u.up == s.up[c := q] && Staying(u) == Staying(s)
  {
    hide NoDup, Without;
  }

  /** Handles that refer to x are not moved. */
  lemma HolderUps(s: Forest, x: Ptr)
    requires WF(s) && x in s.live
    ensures x in s.up && x in s.refs && forall g {:trigger g in s.refs[x]} | g in s.refs[x] :: g in s.target && g in s.up
  {
  }

  lemma PromotedFields(s: Forest, h: Ptr)
    requires WF(s) && h in s.target && s.target[h] !in s.loose && s.up[s.target[h]] in s.loose
    requires s.up[h] in FreeHandle(s, h).live && WF(FreeHandle(s, h)) && s.target[h] in FreeHandle(s, h).live
    ensures var c, u := s.target[h], Move(FreeHandle(s, h), s.target[h], s.up[h]);
      && u.up == s.up[c := s.up[h]] && u.refs == s.refs[c := Without(s.refs[c], h)]
      && u.live == s.live - {h} && u.target == s.target - {h} && u.loose == s.loose && Staying(u) == Staying(s) - {h}
  {
    hide NoDup, Without, FreeHandle, Move, Staying;
    HandleUp(s, h);
    HandleFields(s, h);
    ParentLive(s, h);
    MovePlaces(FreeHandle(s, h), s.target[h], s.up[h]);
  }

  lemma ParentLive(s: Forest, h: Ptr)
    requires WF(s) && h in s.target && s.up[s.target[h]] in s.loose
    ensures s.up[s.target[h]] in s.live && s.up[s.target[h]] != h && s.target[h] in s.live
  {
  }

  /** The latest reference to an abandoned child goes and its holder takes over. */
  lemma PlacesPromoted(s: Forest, h: Ptr, q: Ptr)
    requires WF(s) && h in s.target && s.up[s.target[h]] in s.loose && s.up[h] in s.live
    requires s.target[h] !in s.loose && s.target[h] !in s.target && s.refs[s.target[h]] != [] && s.refs[s.target[h]][0] == h
    requires WF(FreeHandle(s, h)) && WF(Move(FreeHandle(s, h), s.target[h], s.up[h]))
    requires s.target[h] in FreeHandle(s, h).live && s.up[h] in FreeHandle(s, h).live
    ensures PlacesKept(s, Move(FreeHandle(s, h), s.target[h], s.up[h]), q)
  {
    hide NoDup, Held, Without, FreeHandle, Move, PlaceKept, TreeWF, RefsWF;
    var c := s.target[h];
    HandleUp(s, h);
    HandleFields(s, h);
    ParentLive(s, h);
    PromotedFields(s, h);
    var u := Move(FreeHandle(s, h), c, s.up[h]);
    forall x {:trigger PlaceKept(s, u, q, x)} | Plain(u, x) && x !in u.loose ensures PlaceKept(s, u, q, x) {
      assert Plain(s, x);
      HolderUps(s, x);
      ListedElsewhere(s, x, c);
      if x != c {
        OtherPlace(s, u, x, q);
      } else {
        PromotedPlace(s, u, h, q);
      }
    }
  }

  /** Handles are no plain chunks. */
  lemma ListedElsewhere(s: Forest, x: Ptr, c: Ptr)
    requires WF(s) && Plain(s, x) && Plain(s, c)
    ensures forall g {:trigger g in s.refs[x]} | g in s.refs[x] :: g != c
  {
  }

  /** A chunk whose parent and references are what they were. */
  lemma OtherPlace(s: Forest, u: Forest, x: Ptr, q: Ptr)
    requires x in s.up && x in s.refs && x in u.up && x in u.refs && u.up[x] == s.up[x] && u.refs[x] == s.refs[x]
    requires forall g | g in s.refs[x] :: g in s.up && g in u.up && s.up[g] == u.up[g]
    ensures PlaceKept(s, u, q, x)
  {
    HeldSame(s, u, s.refs[x], Staying(u), Staying(u));
    hide Held;
  }

  lemma PromotedPlace(s: Forest, u: Forest, h: Ptr, q: Ptr)
    requires h in s.target && h in s.up && s.target[h] in s.up && s.target[h] in s.refs
    requires s.target[h] in u.up && s.target[h] in u.refs
    requires var c := s.target[h];
      && s.up[c] !in Staying(u) && s.refs[c] != [] && s.refs[c][0] == h
      && u.up[c] == s.up[h] && u.refs[c] == Without(s.refs[c], h)
      && forall g | g in s.refs[c] :: g in s.up && g in u.up && s.up[g] == u.up[g]
    ensures PlaceKept(s, u, q, s.target[h])
  {
    var c, k := s.target[h], Staying(u);
    var hs := s.refs[c];
    assert u.refs[c] == hs[1..];
    assert forall g | g in hs[1..] :: g in hs;
    HeldSame(s, u, hs[1..], k, k);
    assert Held(s, hs, k) == (if s.up[h] in k then [h] else []) + Held(s, hs[1..], k);
    assert ([h] + Held(s, hs[1..], k))[1..] == Held(s, hs[1..], k);
  }

  /** An abandoned child that nobody refers to and that refuses goes to q. */
  lemma PlacesBubbled(s: Forest, c: Ptr, q: Ptr)
    requires WF(s) && Plain(s, c) && c !in s.loose && c in s.veto && s.refs[c] == [] && s.up[c] in s.loose
    requires (q != NULL ==> q in s.live) && WF(Move(s, c, q))
    ensures PlacesKept(s, Move(s, c, q), q)
  {
    hide NoDup;
    var u := Move(s, c, q);
    var k := Staying(u);
    MovePlaces(s, c, q);
    forall x {:trigger PlaceKept(s, u, q, x)} | Plain(u, x) && x !in u.loose ensures PlaceKept(s, u, q, x) {
      HolderUps(s, x);
      HeldSame(s, u, s.refs[x], k, k);
      assert x != c ==> u.up[x] == s.up[x];
    }
  }

  /** The chunk p, which was unlinked first, is given back last. */
  lemma PlacesFinish(s: Forest, p: Ptr, e: Forest, q: Ptr)
    requires WF(s) && Plain(s, p) && p !in s.loose && WF(Unlink(s, p)) && WF(e) && p in e.loose && Keyed(Remove(e, p))
    requires e.live <= s.live && e.loose == s.loose + {p} && PlacesKept(Unlink(s, p), e, q)
    ensures PlacesKept(s, Remove(e, p), q)
  {
    hide NoDup, RefsWF, Held;
    var s1, t := Unlink(s, p), Remove(e, p);
    assert p != NULL && Staying(t) == Staying(e);
    forall x {:trigger PlaceKept(s, t, q, x)} | Plain(t, x) && x !in t.loose ensures PlaceKept(s, t, q, x) {
      assert PlaceKept(s1, e, q, x);
      HeldUp(s, s1, s.refs[x], Staying(e));
      HeldUp(e, t, e.refs[x], Staying(e));
    }
  }
}
