/** Creating objects, bringing pages in, and storing into them. */
module PageIn {
  import opened Basics
  import opened Memory

  // ---------------------------------------------------------------------
  // Steps on the memory
  // ---------------------------------------------------------------------

  function AddRef(m: Mem, o: nat): Mem
    requires o in m.objs
  {
    SetObj(m, o, m.objs[o].(refs := m.objs[o].refs + 1))
  }

  /** A new object comes with one reference, owned by its creator. */
  function AddObj(m: Mem, k: Kind): Mem {
    Mem(m.objs[m.next := Obj(k, 1, 0, map[])], m.next + 1)
  }

  /** The cached end of the chain, as `mmobj_bottom_obj` reads it. */
  function CachedBottom(m: Mem, o: nat): nat
    requires o in m.objs
  {
    if m.objs[o].kind.Shadow? then m.objs[o].kind.bottom else o
  }

  /** A new shadow over `u`; it takes over its creator's reference on `u`. */
  function AddShadow(m: Mem, u: nat): Mem
    requires u in m.objs
  {
    AddObj(m, Shadow(u, CachedBottom(m, u)))
  }

  /** A page becomes resident: it owns one reference on its object. */
  function AddFrame(m: Mem, o: nat, p: nat, f: Frame): Mem
    requires o in m.objs
  {
    var x := m.objs[o];
    SetObj(m, o, x.(refs := x.refs + 1, nres := x.nres + 1, frames := x.frames[p := f]))
  }

  function SetFrame(m: Mem, o: nat, p: nat, f: Frame): Mem
    requires o in m.objs
  {
    SetObj(m, o, m.objs[o].(frames := m.objs[o].frames[p := f]))
  }

  // ---------------------------------------------------------------------
  // They keep the invariant
  // ---------------------------------------------------------------------

  lemma AddRefInv(m: Mem, held: multiset<nat>, o: nat)
    requires Inv(m, held) && o in m.objs
    ensures Inv(AddRef(m, o), held + multiset{o})
  {
    hide WellFormed, Accounted;
    SetRefsWellFormed(m, o, m.objs[o].refs + 1);
    SetRefsAccounted(m, held, o, m.objs[o].refs + 1, held + multiset{o});
  }

  predicate Fresh(m: Mem) {
    forall o <- m.objs :: o < m.next && (m.objs[o].kind.Shadow? ==> m.objs[o].kind.under < o)
  }

  /** Chains and views of old objects do not see a new one. */
  lemma {:induction false} AddObjChain(m: Mem, k: Kind, x: nat)
    requires Fresh(m) && x < m.next
    ensures Bottom(AddObj(m, k), x) == Bottom(m, x)
    ensures Chain(AddObj(m, k), x) == Chain(m, x)
    ensures forall p :: View(AddObj(m, k), x, p) == View(m, x, p)
    decreases x
  {
    if x in m.objs && m.objs[x].kind.Shadow? && m.objs[x].kind.under < x {
      AddObjChain(m, k, m.objs[x].kind.under);
    }
  }

  lemma {:induction false} AddObjOver(m: Mem, k: Kind, o: nat, n: nat)
    requires n <= m.next
    ensures OverBelow(AddObj(m, k), o, n) == OverBelow(m, o, n)
    decreases n
  {
    if n > 0 { AddObjOver(m, k, o, n - 1); }
  }

  lemma {:induction false} NothingOverNew(m: Mem, n: nat)
    requires Fresh(m)
    ensures OverBelow(m, m.next, n) == 0
    decreases n
  {
    if n > 0 { NothingOverNew(m, n - 1); }
  }

  lemma WellFormedIsFresh(m: Mem)
    requires WellFormed(m)
    ensures Fresh(m)
  {
    forall o <- m.objs ensures o < m.next && (m.objs[o].kind.Shadow? ==> m.objs[o].kind.under < o) {
      assert ObjOk(m, o);
    }
  }

  /** May an object of kind `k` be made here? A shadow must stand on a live
      object and cache the real end of its chain. */
  predicate KindFits(m: Mem, k: Kind) {
    k.Shadow? ==> k.under in m.objs && k.bottom == Bottom(m, k.under)
  }

  lemma AddObjWellFormed(m: Mem, k: Kind)
    requires WellFormed(m) && KindFits(m, k)
    ensures WellFormed(AddObj(m, k))
  {
    WellFormedIsFresh(m);
    var m' := AddObj(m, k);
    forall y <- m'.objs ensures ObjOk(m', y) {
      if y == m.next {
        if k.Shadow? { assert ObjOk(m, k.under); AddObjChain(m, k, k.under); }
      } else {
        assert ObjOk(m, y);
        AddObjChain(m, k, y);
      }
    }
  }

  lemma AddObjAccounted(m: Mem, k: Kind, held: multiset<nat>)
    requires Fresh(m) && KindFits(m, k) && Accounted(m, held + Below(Obj(k, 1, 0, map[])))
    ensures Accounted(AddObj(m, k), held + multiset{m.next})
  {
    var m' := AddObj(m, k);
    forall y <- m'.objs
      ensures m'.objs[y].refs == m'.objs[y].nres + Over(m', y) + (held + multiset{m.next})[y]
    {
      AddObjOver(m, k, y, m.next);
      NothingOverNew(m, m.next);
    }
  }

  /** A new object, its one reference owned outside; a new shadow owns the
      reference its creator had on the object below. */
  lemma AddObjInv(m: Mem, k: Kind, held: multiset<nat>)
    requires KindFits(m, k) && Inv(m, held + Below(Obj(k, 1, 0, map[])))
    ensures Inv(AddObj(m, k), held + multiset{m.next})
  {
    AddObjWellFormed(m, k);
    WellFormedIsFresh(m);
    AddObjAccounted(m, k, held);
  }

  lemma CachedBottomIsBottom(m: Mem, o: nat)
    requires WellFormed(m) && o in m.objs
    ensures CachedBottom(m, o) == Bottom(m, o)
    ensures KindFits(m, Shadow(o, CachedBottom(m, o)))
  {
    assert ObjOk(m, o);
  }

  lemma AddShadowInv(m: Mem, u: nat, held: multiset<nat>)
    requires Inv(m, held + multiset{u})
    ensures Inv(AddShadow(m, u), held + multiset{m.next})
  {
    CachedBottomIsBottom(m, u);
    var k := Shadow(u, CachedBottom(m, u));
    assert Below(Obj(k, 1, 0, map[])) == multiset{u};
    AddObjInv(m, k, held);
  }

  /** A fresh shadow shows what lies below it; nothing else changes. */
  lemma AddShadowViews(m: Mem, u: nat)
    requires WellFormed(m) && u in m.objs
    ensures forall x, p :: x in m.objs ==> View(AddShadow(m, u), x, p) == View(m, x, p)
    ensures forall p :: View(AddShadow(m, u), m.next, p) == View(m, u, p)
  {
    WellFormedIsFresh(m);
    var k := Shadow(u, CachedBottom(m, u));
    forall x, p | x in m.objs ensures View(AddShadow(m, u), x, p) == View(m, x, p) {
      AddObjChain(m, k, x);
    }
  }

  // ---------------------------------------------------------------------
  // Resident pages
  // ---------------------------------------------------------------------

  predicate FrameFits(x: Obj, p: nat, f: Frame) {
    x.kind.File? ==> p < |x.kind.disk| && f.pins == 0
  }

  /** Replacing one object by another of the same kind with pages in order. */
  lemma SetObjWellFormed(m: Mem, o: nat, x: Obj)
    requires WellFormed(m) && o in m.objs && x.kind == m.objs[o].kind && Local(x)
    ensures WellFormed(SetObj(m, o, x))
  {
    var m' := SetObj(m, o, x);
    forall y <- m'.objs ensures ObjOk(m', y) {
      assert ObjOk(m, y);
      SameKindsBottom(m, m', y);
    }
  }

  lemma SetObjAccounted(m: Mem, o: nat, x: Obj, held: multiset<nat>)
    requires Accounted(m, held) && o in m.objs && x.kind == m.objs[o].kind
    requires x.refs - x.nres == m.objs[o].refs - m.objs[o].nres
    ensures Accounted(SetObj(m, o, x), held)
  {
    var m' := SetObj(m, o, x);
    forall y <- m'.objs ensures m'.objs[y].refs == m'.objs[y].nres + Over(m', y) + held[y] {
      SameKindsOver(m, m', y, m.next);
    }
  }

  lemma SetObjInv(m: Mem, o: nat, x: Obj, held: multiset<nat>)
    requires Inv(m, held) && o in m.objs && x.kind == m.objs[o].kind && Local(x)
    requires x.refs - x.nres == m.objs[o].refs - m.objs[o].nres
    ensures Inv(SetObj(m, o, x), held)
  {
    hide WellFormed, Accounted;
    SetObjWellFormed(m, o, x);
    SetObjAccounted(m, o, x, held);
  }

  lemma LocalAfterAdd(x: Obj, p: nat, f: Frame)
    requires Local(x) && p !in x.frames && FrameFits(x, p, f)
    ensures Local(x.(refs := x.refs + 1, nres := x.nres + 1, frames := x.frames[p := f]))
  {
  }

  lemma AddFrameInv(m: Mem, o: nat, p: nat, f: Frame, held: multiset<nat>)
    requires Inv(m, held) && o in m.objs && p !in m.objs[o].frames && FrameFits(m.objs[o], p, f)
    ensures Inv(AddFrame(m, o, p, f), held)
  {
    var x := m.objs[o];
    hide Inv;
    InvObjOk(m, held, o);
    LocalAfterAdd(x, p, f);
    hide Local;
    SetObjInv(m, o, x.(refs := x.refs + 1, nres := x.nres + 1, frames := x.frames[p := f]), held);
  }

  lemma SetFrameInv(m: Mem, o: nat, p: nat, f: Frame, held: multiset<nat>)
    requires Inv(m, held) && o in m.objs && p in m.objs[o].frames && FrameFits(m.objs[o], p, f)
    ensures Inv(SetFrame(m, o, p, f), held)
  {
    var x := m.objs[o];
    hide Inv;
    InvObjOk(m, held, o);
    assert x.frames[p := f].Keys == x.frames.Keys;
    SetObjInv(m, o, x.(frames := x.frames[p := f]), held);
  }

  /** Changing the pages of `o` shows only through chains that pass `o`. */
  lemma {:induction false} OffChainView(m: Mem, o: nat, x: Obj, y: nat, p: nat)
    requires o in m.objs && x.kind == m.objs[o].kind && o !in Chain(m, y)
    ensures View(SetObj(m, o, x), y, p) == View(m, y, p)
    decreases y
  {
    if y in m.objs && m.objs[y].kind.Shadow? && m.objs[y].kind.under < y {
      OffChainView(m, o, x, m.objs[y].kind.under, p);
    }
  }

  /** If `o` itself still shows the same for page `p`, so does everyone. */
  lemma {:induction false} SameAtSameAbove(m: Mem, o: nat, x: Obj, y: nat, p: nat)
    requires o in m.objs && x.kind == m.objs[o].kind
    requires View(SetObj(m, o, x), o, p) == View(m, o, p)
    ensures View(SetObj(m, o, x), y, p) == View(m, y, p)
    decreases y
  {
    if y != o && y in m.objs && m.objs[y].kind.Shadow? && m.objs[y].kind.under < y {
      SameAtSameAbove(m, o, x, m.objs[y].kind.under, p);
    }
  }

  /** Objects below `o` never see `o`. */
  lemma {:induction false} BelowView(m: Mem, o: nat, x: Obj, y: nat, p: nat)
    requires y < o && o in m.objs
    ensures View(SetObj(m, o, x), y, p) == View(m, y, p)
    decreases y
  {
    if y in m.objs && m.objs[y].kind.Shadow? && m.objs[y].kind.under < y {
      BelowView(m, o, x, m.objs[y].kind.under, p);
    }
  }

  // ---------------------------------------------------------------------
  // Looking a page up
  // ---------------------------------------------------------------------

  /** The memory afterwards and, unless the lookup failed, the object whose
      frame was returned. */
  datatype Lookup = Found(mem: Mem, owner: nat) | Fault(mem: Mem)

  /** What a base object fills a new frame with: anonymous pages are zeroed and
      stay pinned, file pages come from disk. */
  function BaseFrame(k: Kind, p: nat): Frame
    requires k.File? ==> p < |k.disk|
  {
    if k.File? then Frame(k.disk[p], 0) else Frame(ZeroPage(), 1)
  }

  /** Lookup in an object at the end of a chain. */
  function LookBase(m: Mem, o: nat, p: nat): Lookup {
    if o !in m.objs || m.objs[o].kind.Shadow? then Fault(m)
    else if m.objs[o].kind.File? && |m.objs[o].kind.disk| <= p then Fault(m)
    else if p in m.objs[o].frames then Found(m, o)
    else Found(AddFrame(m, o, p, BaseFrame(m.objs[o].kind, p)), o)
  }

  /** The first object down the chain with page `p` resident. */
  function FirstResident(m: Mem, o: nat, p: nat): Option<nat> {
    if o !in m.objs then None
    else if p in m.objs[o].frames then Some(o)
    else if m.objs[o].kind.Shadow? && m.objs[o].kind.under < o then FirstResident(m, m.objs[o].kind.under, p)
    else None
  }

  function LookRead(m: Mem, o: nat, p: nat): Lookup {
    if o in m.objs && m.objs[o].kind.Shadow? then
      match FirstResident(m, o, p)
      case Some(w) => Found(m, w)
      case None => LookBase(m, m.objs[o].kind.bottom, p)
    else LookBase(m, o, p)
  }

  /** Lookup for writing. A shadow gets a frame of its own, first holding
      whatever the page allocator left there (`junk`), then a copy of what the
      chain below shows; if there is nothing below, the junk frame stays. */
  function LookWrite(m: Mem, o: nat, p: nat, junk: Page): Lookup {
    if o !in m.objs || !m.objs[o].kind.Shadow? then LookBase(m, o, p)
    else if p in m.objs[o].frames then Found(m, o)
    else
      var r := LookRead(AddFrame(m, o, p, Frame(junk, 0)), m.objs[o].kind.under, p);
      if !Landed(r, p) || o !in r.mem.objs then Fault(r.mem)
      else Found(SetFrame(r.mem, o, p, Frame(r.mem.objs[r.owner].frames[p].data, 1)), o)
  }

  /** Did the lookup end on a resident page `p`? */
  predicate Landed(r: Lookup, p: nat) {
    r.Found? && r.owner in r.mem.objs && p in r.mem.objs[r.owner].frames
  }

  lemma {:induction false} ResidentIsView(m: Mem, o: nat, p: nat)
    requires WellFormed(m) && o in m.objs
    ensures Bottom(m, o) in m.objs && !m.objs[Bottom(m, o)].kind.Shadow? && Bottom(m, o) in Chain(m, o)
            && Bottom(m, o) <= o
    ensures FirstResident(m, o, p).Some? ==>
              var w := FirstResident(m, o, p).value;
              w in Chain(m, o) && w in m.objs && p in m.objs[w].frames
                && View(m, o, p) == Some(m.objs[w].frames[p].data)
    ensures FirstResident(m, o, p).None? ==>
            View(m, o, p) == View(m, Bottom(m, o), p) && p !in m.objs[Bottom(m, o)].frames
    decreases o
  {
    assert ObjOk(m, o);
    if m.objs[o].kind.Shadow? { ResidentIsView(m, m.objs[o].kind.under, p); }
  }

  /** What a lookup of page `p` of `o` in `m` must deliver. */
  ghost predicate Delivers(m: Mem, o: nat, p: nat, r: Lookup) {
    && (r.Found? <==> View(m, o, p).Some?)
    && (r.Found? ==> Landed(r, p) && Some(r.mem.objs[r.owner].frames[p].data) == View(m, o, p))
  }

  ghost predicate SameViews(m: Mem, m': Mem) {
    forall x, p :: View(m', x, p) == View(m, x, p)
  }

  /** Making a page resident with the content it already showed is invisible. */
  lemma FillIsInvisible(m: Mem, o: nat, x: Obj, p: nat)
    requires o in m.objs && x.kind == m.objs[o].kind && p in x.frames
    requires View(m, o, p) == Some(x.frames[p].data)
    requires forall q :: q != p ==> (q in x.frames <==> q in m.objs[o].frames)
    requires forall q :: q != p && q in x.frames ==> x.frames[q] == m.objs[o].frames[q]
    ensures SameViews(m, SetObj(m, o, x))
  {
    forall y, q ensures View(SetObj(m, o, x), y, q) == View(m, y, q) {
      if m.objs[o].kind.Shadow? && m.objs[o].kind.under < o { BelowView(m, o, x, m.objs[o].kind.under, q); }
      SameAtSameAbove(m, o, x, y, q);
    }
  }

  lemma BaseLookup(m: Mem, o: nat, p: nat, held: multiset<nat>)
    requires Inv(m, held) && o in m.objs && !m.objs[o].kind.Shadow?
    ensures Delivers(m, o, p, LookBase(m, o, p))
    ensures Inv(LookBase(m, o, p).mem, held)
    ensures SameViews(m, LookBase(m, o, p).mem)
    ensures LookBase(m, o, p).Fault? ==> LookBase(m, o, p).mem == m
  {
    hide Inv;
    InvObjOk(m, held, o);
    var x := m.objs[o];
    if !(x.kind.File? && |x.kind.disk| <= p) && p !in x.frames {
      hide SameViews;
      BaseFill(m, o, p, BaseFrame(x.kind, p), held);
    }
  }

  lemma BaseFill(m: Mem, o: nat, p: nat, f: Frame, held: multiset<nat>)
    requires Inv(m, held) && o in m.objs && !m.objs[o].kind.Shadow? && p !in m.objs[o].frames
    requires m.objs[o].kind.File? ==> p < |m.objs[o].kind.disk|
    requires f == BaseFrame(m.objs[o].kind, p)
    ensures Inv(AddFrame(m, o, p, f), held)
    ensures SameViews(m, AddFrame(m, o, p, f))
  {
    hide Inv, SameViews;
    AddFrameInv(m, o, p, f, held);
    var x := m.objs[o];
    FillIsInvisible(m, o, x.(refs := x.refs + 1, nres := x.nres + 1, frames := x.frames[p := f]), p);
  }

  /** A read lookup is invisible at any chain depth: it delivers the view, and
      no object's view of any page changes. */
  lemma ReadIsInvisible(m: Mem, o: nat, p: nat, held: multiset<nat>)
    requires Inv(m, held) && o in m.objs
    ensures Delivers(m, o, p, LookRead(m, o, p))
    ensures Inv(LookRead(m, o, p).mem, held)
    ensures SameViews(m, LookRead(m, o, p).mem)
    ensures LookRead(m, o, p).Fault? ==> LookRead(m, o, p).mem == m
  {
    assert ObjOk(m, o);
    if m.objs[o].kind.Shadow? {
      ResidentIsView(m, o, p);
      if FirstResident(m, o, p).None? { BaseLookup(m, Bottom(m, o), p, held); }
    } else {
      BaseLookup(m, o, p, held);
    }
  }

  lemma {:induction false} ResidentIgnoresAbove(m: Mem, o: nat, x: Obj, u: nat, p: nat)
    requires u < o && o in m.objs
    ensures FirstResident(SetObj(m, o, x), u, p) == FirstResident(m, u, p)
    decreases u
  {
    if u in m.objs && p !in m.objs[u].frames && m.objs[u].kind.Shadow? && m.objs[u].kind.under < u {
      ResidentIgnoresAbove(m, o, x, m.objs[u].kind.under, p);
    }
  }

  lemma BaseIgnoresAbove(m: Mem, o: nat, x: Obj, b: nat, p: nat)
    requires b < o && o in m.objs
    ensures var r := LookBase(m, b, p);
            && o in r.mem.objs && r.mem.objs[o] == m.objs[o]
            && LookBase(SetObj(m, o, x), b, p) == r.(mem := SetObj(r.mem, o, x))
  {
    if b in m.objs && !m.objs[b].kind.Shadow? && !(m.objs[b].kind.File? && |m.objs[b].kind.disk| <= p)
      && p !in m.objs[b].frames {
      var f := BaseFrame(m.objs[b].kind, p);
      assert AddFrame(SetObj(m, o, x), b, p, f).objs == SetObj(AddFrame(m, b, p, f), o, x).objs;
    }
  }

  /** A lookup below `o` neither reads nor changes `o`. */
  lemma ReadIgnoresAbove(m: Mem, o: nat, x: Obj, u: nat, p: nat)
    requires WellFormed(m) && u in m.objs && u < o && o in m.objs
    ensures var r := LookRead(m, u, p);
            && o in r.mem.objs && r.mem.objs[o] == m.objs[o]
            && LookRead(SetObj(m, o, x), u, p) == r.(mem := SetObj(r.mem, o, x))
  {
    ResidentIgnoresAbove(m, o, x, u, p);
    ResidentIsView(m, u, p);
    assert ObjOk(m, u);
    BaseIgnoresAbove(m, o, x, Bottom(m, u), p);
  }

  /** Allocating first and copying afterwards comes to reading first and then
      making the copy resident. */
  function ReadThenAdd(m: Mem, o: nat, p: nat, junk: Page): Lookup
    requires o in m.objs && m.objs[o].kind.Shadow?
  {
    var r := LookRead(m, m.objs[o].kind.under, p);
    if !Landed(r, p) || o !in r.mem.objs then Fault(AddFrame(m, o, p, Frame(junk, 0)))
    else Found(AddFrame(r.mem, o, p, Frame(r.mem.objs[r.owner].frames[p].data, 1)), o)
  }

  lemma WriteCopies(m: Mem, o: nat, p: nat, junk: Page)
    requires WellFormed(m) && o in m.objs && m.objs[o].kind.Shadow? && p !in m.objs[o].frames
    requires var r := LookRead(m, m.objs[o].kind.under, p); if r.Fault? then r.mem == m else Landed(r, p)
    ensures LookWrite(m, o, p, junk) == ReadThenAdd(m, o, p, junk)
  {
    assert ObjOk(m, o);
    hide WellFormed, LookRead;
    var u := m.objs[o].kind.under;
    var x := m.objs[o];
    var x1 := x.(refs := x.refs + 1, nres := x.nres + 1, frames := x.frames[p := Frame(junk, 0)]);
    ReadIgnoresAbove(m, o, x1, u, p);
    var r := LookRead(m, u, p);
    if r.Found? {
      OwnerIsBelow(m, u, p);
      var f := Frame(r.mem.objs[r.owner].frames[p].data, 1);
      assert x1.frames[p := f] == x.frames[p := f];
      assert SetFrame(SetObj(r.mem, o, x1), o, p, f).objs == AddFrame(r.mem, o, p, f).objs;
    }
  }

  lemma OwnerIsBelow(m: Mem, u: nat, p: nat)
    requires WellFormed(m) && u in m.objs && LookRead(m, u, p).Found?
    ensures LookRead(m, u, p).owner <= u
  {
    ResidentIsView(m, u, p);
    ResidentBelow(m, u, p);
    assert ObjOk(m, u);
  }

  lemma {:induction false} ResidentBelow(m: Mem, u: nat, p: nat)
    ensures FirstResident(m, u, p).Some? ==> FirstResident(m, u, p).value <= u
    decreases u
  {
    if u in m.objs && p !in m.objs[u].frames && m.objs[u].kind.Shadow? && m.objs[u].kind.under < u {
      ResidentBelow(m, m.objs[u].kind.under, p);
    }
  }

  /** The step from a read of the object below to a page of one's own. */
  lemma CopyUp(m: Mem, o: nat, p: nat, junk: Page, held: multiset<nat>)
    requires Inv(m, held) && o in m.objs && m.objs[o].kind.Shadow? && p !in m.objs[o].frames
    ensures var r := LookRead(m, m.objs[o].kind.under, p);
            && LookWrite(m, o, p, junk) == ReadThenAdd(m, o, p, junk)
            && o in r.mem.objs && r.mem.objs[o] == m.objs[o] && Inv(r.mem, held) && SameViews(m, r.mem)
            && Delivers(m, o, p, r) && (r.Fault? ==> r.mem == m)
  {
    assert ObjOk(m, o);
    ReadIsInvisible(m, m.objs[o].kind.under, p, held);
    ReadIgnoresAbove(m, o, m.objs[o], m.objs[o].kind.under, p);
    WriteCopies(m, o, p, junk);
  }

  /** A write lookup returns a frame of the object asked, holding what the chain
      showed, and keeps the accounting even when it fails. */
  lemma WriteDelivers(m: Mem, o: nat, p: nat, junk: Page, held: multiset<nat>)
    requires Inv(m, held) && o in m.objs
    ensures Delivers(m, o, p, LookWrite(m, o, p, junk))
    ensures Inv(LookWrite(m, o, p, junk).mem, held)
    ensures LookWrite(m, o, p, junk).Found? ==> LookWrite(m, o, p, junk).owner == o
  {
    if !m.objs[o].kind.Shadow? {
      BaseLookup(m, o, p, held);
    } else if p !in m.objs[o].frames {
      CopyDelivers(m, o, p, junk, held);
    }
  }

  lemma CopyDelivers(m: Mem, o: nat, p: nat, junk: Page, held: multiset<nat>)
    requires Inv(m, held) && o in m.objs && m.objs[o].kind.Shadow? && p !in m.objs[o].frames
    ensures Delivers(m, o, p, LookWrite(m, o, p, junk))
    ensures Inv(LookWrite(m, o, p, junk).mem, held)
    ensures LookWrite(m, o, p, junk).Found? ==> LookWrite(m, o, p, junk).owner == o
  {
    hide Inv, LookRead, LookWrite, View, SameViews;
    CopyUp(m, o, p, junk, held);
    var r := LookRead(m, m.objs[o].kind.under, p);
    if r.Fault? {
      AddFrameInv(m, o, p, Frame(junk, 0), held);
    } else {
      AddFrameInv(r.mem, o, p, Frame(r.mem.objs[r.owner].frames[p].data, 1), held);
    }
  }

  lemma AddCopySameViews(m: Mem, m': Mem, o: nat, p: nat, f: Frame)
    requires SameViews(m, m') && o in m'.objs && View(m, o, p) == Some(f.data)
    ensures SameViews(m, AddFrame(m', o, p, f))
  {
    var x := m'.objs[o];
    assert View(m', o, p) == View(m, o, p);
    FillIsInvisible(m', o, x.(refs := x.refs + 1, nres := x.nres + 1, frames := x.frames[p := f]), p);
  }

  lemma WriteSameViews(m: Mem, o: nat, p: nat, junk: Page, held: multiset<nat>)
    requires Inv(m, held) && o in m.objs && View(m, o, p).Some?
    ensures SameViews(m, LookWrite(m, o, p, junk).mem)
  {
    if !m.objs[o].kind.Shadow? {
      BaseLookup(m, o, p, held);
    } else if p !in m.objs[o].frames {
      CopyUp(m, o, p, junk, held);
      var r := LookRead(m, m.objs[o].kind.under, p);
      hide Inv, LookRead, LookWrite, View, SameViews;
      AddCopySameViews(m, r.mem, o, p, Frame(r.mem.objs[r.owner].frames[p].data, 1));
    }
  }

  /** Copy-on-write page-in is invisible exactly when there is something to copy.
      Past the end of a private file mapping the fill fails after the frame was
      made resident, and its arbitrary content becomes the page. */
  lemma WriteIsInvisibleIff(m: Mem, o: nat, p: nat, junk: Page, held: multiset<nat>)
    requires Inv(m, held) && o in m.objs
    ensures SameViews(m, LookWrite(m, o, p, junk).mem) <==> View(m, o, p).Some? || !m.objs[o].kind.Shadow?
  {
    if View(m, o, p).Some? {
      WriteSameViews(m, o, p, junk, held);
    } else if !m.objs[o].kind.Shadow? {
      BaseLookup(m, o, p, held);
    } else {
      CopyUp(m, o, p, junk, held);
      assert View(LookWrite(m, o, p, junk).mem, o, p) == Some(junk);
    }
  }

  // ---------------------------------------------------------------------
  // Stores
  // ---------------------------------------------------------------------

  /** A store into the resident page `p` of `o`. */
  function Store(m: Mem, o: nat, p: nat, data: Page): Mem
    requires o in m.objs && p in m.objs[o].frames
  {
    SetFrame(m, o, p, m.objs[o].frames[p].(data := data))
  }

  lemma {:induction false} UnshadowedOffChain(m: Mem, o: nat, y: nat)
    requires Unshadowed(m, o) && y != o
    ensures o !in Chain(m, y)
    decreases y
  {
    if y in m.objs && m.objs[y].kind.Shadow? && m.objs[y].kind.under < y {
      assert !IsOver(m, y, o);
      UnshadowedOffChain(m, o, m.objs[y].kind.under);
    }
  }

  /** New content in page `p` of an object nothing shadows changes that one page
      of that one object. */
  lemma PutIsPrivate(m: Mem, o: nat, x: Obj, p: nat, f: Frame, y: nat, q: nat)
    requires o in m.objs && Unshadowed(m, o) && x.kind == m.objs[o].kind && x.frames == m.objs[o].frames[p := f]
    ensures View(SetObj(m, o, x), y, q) == if y == o && q == p then Some(f.data) else View(m, y, q)
  {
    if y != o {
      UnshadowedOffChain(m, o, y);
      OffChainView(m, o, x, y, q);
    } else if q != p {
      if m.objs[o].kind.Shadow? && m.objs[o].kind.under < o { BelowView(m, o, x, m.objs[o].kind.under, q); }
    }
  }

  /** In general a store shows wherever a lookup ends on the stored frame. */
  lemma {:induction false} StoreShows(m: Mem, o: nat, p: nat, data: Page, y: nat, q: nat)
    requires o in m.objs && p in m.objs[o].frames
    ensures View(Store(m, o, p, data), y, q) ==
            if q == p && FirstResident(m, y, p) == Some(o) then Some(data) else View(m, y, q)
    decreases y
  {
    if y in m.objs && q !in m.objs[y].frames && m.objs[y].kind.Shadow? && m.objs[y].kind.under < y {
      StoreShows(m, o, p, data, m.objs[y].kind.under, q);
    }
    ResidentBelow(m, y, p);
  }
}
