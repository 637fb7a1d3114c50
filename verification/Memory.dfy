/** Memory objects (`mmobj_t`), their resident pages and their references.

    An object is named by its allocation number: a new object gets the next
    number and numbers are never used again, so a name missing from `objs` is a
    freed object and a lookup of it is a use after free. */
module Memory {
  import opened Basics

  const PAGE_SIZE: nat := 4096

  type Page = s: seq<int> | |s| == PAGE_SIZE witness seq(PAGE_SIZE, _ => 0)

  function ZeroPage(): Page { seq(PAGE_SIZE, _ => 0) }

  /** What stands behind an object: zeroes, another object (with the cached
      end of the chain), or a file of whole pages that may still have links. */
  datatype Kind =
    | Anon
    | Shadow(under: nat, bottom: nat)
    | File(disk: seq<Page>, linked: bool)

  datatype Frame = Frame(data: Page, pins: nat)

  /** `refs` is mmo_refcount, `nres` mmo_nrespages, `frames` the resident pages by number. */
  datatype Obj = Obj(kind: Kind, refs: int, nres: int, frames: map<nat, Frame>)

  datatype Mem = Mem(objs: map<nat, Obj>, next: nat)

  // ---------------------------------------------------------------------
  // Chains and views
  // ---------------------------------------------------------------------

  /** The real end of the chain below `o`. */
  function Bottom(m: Mem, o: nat): nat {
    if o in m.objs && m.objs[o].kind.Shadow? && m.objs[o].kind.under < o
    then Bottom(m, m.objs[o].kind.under) else o
  }

  /** The objects met walking down from `o`, `o` included. */
  function Chain(m: Mem, o: nat): set<nat> {
    if o in m.objs && m.objs[o].kind.Shadow? && m.objs[o].kind.under < o
    then {o} + Chain(m, m.objs[o].kind.under) else {o}
  }

  /** The content page `p` of `o` stands for: the first resident copy down the
      chain, else what the bottom object provides. */
  function View(m: Mem, o: nat, p: nat): Option<Page> {
    if o !in m.objs then None
    else if p in m.objs[o].frames then Some(m.objs[o].frames[p].data)
    else match m.objs[o].kind
      case Anon => Some(ZeroPage())
      case File(disk, _) => if p < |disk| then Some(disk[p]) else None
      case Shadow(u, _) => if u < o then View(m, u, p) else None
  }

  /** Is the object in step with its own pages and with the chain below it? */
  predicate ObjOk(m: Mem, o: nat)
    requires o in m.objs
  {
    && o < m.next
    && Local(m.objs[o])
    && (m.objs[o].kind.Shadow? ==>
          && m.objs[o].kind.under < o
          && m.objs[o].kind.under in m.objs
          && m.objs[o].kind.bottom == Bottom(m, o))
  }

  predicate Local(x: Obj) {
    && x.nres == |x.frames|
    && (x.kind.File? ==> forall p <- x.frames :: p < |x.kind.disk| && x.frames[p].pins == 0)
  }

  predicate WellFormed(m: Mem) {
    forall o <- m.objs :: ObjOk(m, o)
  }

  // ---------------------------------------------------------------------
  // Reference accounting
  // ---------------------------------------------------------------------

  predicate IsOver(m: Mem, s: nat, o: nat) {
    s in m.objs && m.objs[s].kind.Shadow? && m.objs[s].kind.under == o
  }

  /** How many of the objects numbered below `n` are shadows directly over `o`. */
  function OverBelow(m: Mem, o: nat, n: nat): nat {
    if n == 0 then 0 else OverBelow(m, o, n - 1) + if IsOver(m, n - 1, o) then 1 else 0
  }

  function Over(m: Mem, o: nat): nat {
    OverBelow(m, o, m.next)
  }

  /** Every reference is owned: by a resident page, by a shadow, or by one of
      the outside holders in `held` (areas, open files, ...). */
  ghost predicate Accounted(m: Mem, held: multiset<nat>) {
    && (forall o <- m.objs :: m.objs[o].refs == m.objs[o].nres + Over(m, o) + held[o])
    && (forall o <- held :: o in m.objs)
  }

  /** Only a file may live on with nothing but its own pages holding it. */
  predicate NoZombie(m: Mem) {
    forall o <- m.objs :: !m.objs[o].kind.File? ==> m.objs[o].refs > m.objs[o].nres
  }

  ghost predicate Inv(m: Mem, held: multiset<nat>) {
    WellFormed(m) && Accounted(m, held) && NoZombie(m)
  }

  lemma InvObjOk(m: Mem, held: multiset<nat>, o: nat)
    requires Inv(m, held) && o in m.objs
    ensures ObjOk(m, o)
  {
  }

  lemma InvHolds(m: Mem, held: multiset<nat>, o: nat)
    requires Inv(m, held) && o in held
    ensures o in m.objs
  {
  }

  // ---------------------------------------------------------------------
  // Dropping a reference
  // ---------------------------------------------------------------------

  function SetObj(m: Mem, o: nat, x: Obj): Mem {
    m.(objs := m.objs[o := x])
  }

  function Erase(m: Mem, o: nat): Mem {
    m.(objs := m.objs - {o})
  }

  /** Does dropping one reference leave nothing but the object's own pages? */
  predicate Dies(x: Obj) {
    x.refs - 1 == x.nres && (x.kind.File? && x.kind.linked ==> x.refs == 1)
  }

  /** What one `put` means, said without the re-entrant page loop: either one
      reference fewer, or the object and all its pages go at once and the
      object below loses a reference in turn. */
  function Release(m: Mem, o: nat): Mem
    decreases o
  {
    if o !in m.objs then m
    else
      var x := m.objs[o];
      if !Dies(x) then SetObj(m, o, x.(refs := x.refs - 1))
      else if x.kind.Shadow? && x.kind.under < o then Release(Erase(m, o), x.kind.under)
      else Erase(m, o)
  }

  // ---------------------------------------------------------------------
  // Shape lemmas: chains depend on kinds only
  // ---------------------------------------------------------------------

  predicate SameKinds(m: Mem, m': Mem) {
    m.objs.Keys == m'.objs.Keys && forall o <- m.objs :: m'.objs[o].kind == m.objs[o].kind
  }

  lemma {:induction false} SameKindsBottom(m: Mem, m': Mem, o: nat)
    requires SameKinds(m, m')
    ensures Bottom(m', o) == Bottom(m, o)
    decreases o
  {
    if o in m.objs && m.objs[o].kind.Shadow? && m.objs[o].kind.under < o {
      SameKindsBottom(m, m', m.objs[o].kind.under);
    }
  }

  lemma {:induction false} SameKindsOver(m: Mem, m': Mem, o: nat, n: nat)
    requires SameKinds(m, m')
    ensures OverBelow(m', o, n) == OverBelow(m, o, n)
    decreases n
  {
    if n > 0 { SameKindsOver(m, m', o, n - 1); }
  }

  lemma {:induction false} OverIsCounted(m: Mem, s: nat, o: nat, n: nat)
    requires IsOver(m, s, o) && s < n
    ensures OverBelow(m, o, n) > 0
    decreases n
  {
    if s < n - 1 { OverIsCounted(m, s, o, n - 1); }
  }

  lemma {:induction false} OverErase(m: Mem, o: nat, b: nat, n: nat)
    ensures OverBelow(Erase(m, o), b, n) == OverBelow(m, b, n) - if o < n && IsOver(m, o, b) then 1 else 0
    decreases n
  {
    if n > 0 { OverErase(m, o, b, n - 1); }
  }

  predicate Unshadowed(m: Mem, o: nat) {
    forall s <- m.objs :: !IsOver(m, s, o)
  }

  lemma UncountedIsUnshadowed(m: Mem, o: nat)
    requires Over(m, o) == 0
    requires forall s <- m.objs :: s < m.next
    ensures Unshadowed(m, o)
  {
    forall s <- m.objs ensures !IsOver(m, s, o) {
      if IsOver(m, s, o) { OverIsCounted(m, s, o, m.next); }
    }
  }

  // Erasing an object nothing shadows leaves every other chain alone.
  lemma {:induction false} EraseChain(m: Mem, o: nat, x: nat)
    requires Unshadowed(m, o) && x != o
    ensures Bottom(Erase(m, o), x) == Bottom(m, x)
    ensures Chain(Erase(m, o), x) == Chain(m, x)
    ensures forall p :: View(Erase(m, o), x, p) == View(m, x, p)
    decreases x
  {
    if x in m.objs && m.objs[x].kind.Shadow? && m.objs[x].kind.under < x {
      assert !IsOver(m, x, o);
      EraseChain(m, o, m.objs[x].kind.under);
    }
  }

  // ---------------------------------------------------------------------
  // Release keeps the accounting
  // ---------------------------------------------------------------------

  /** In an accounted state a dying object has no other holder at all. */
  lemma DyingIsUnheld(m: Mem, held: multiset<nat>, o: nat)
    requires Inv(m, held + multiset{o}) && Dies(m.objs[o])
    ensures Over(m, o) == 0 && Unshadowed(m, o) && o !in held
  {
    assert Over(m, o) == 0;
    forall s <- m.objs ensures s < m.next { assert ObjOk(m, s); }
    UncountedIsUnshadowed(m, o);
  }

  lemma EraseObjOk(m: Mem, o: nat, y: nat)
    requires Unshadowed(m, o) && y in m.objs && y != o && ObjOk(m, y)
    ensures ObjOk(Erase(m, o), y)
  {
    EraseChain(m, o, y);
    assert !IsOver(m, y, o);
  }

  /** The reference an object holds on the one below it. */
  function Below(x: Obj): multiset<nat> {
    if x.kind.Shadow? then multiset{x.kind.under} else multiset{}
  }

  /** The state between erasing `o` and dropping the reference it had below. */
  lemma EraseInv(m: Mem, held: multiset<nat>, o: nat)
    requires Inv(m, held + multiset{o}) && Dies(m.objs[o])
    ensures Inv(Erase(m, o), held + Below(m.objs[o]))
  {
    DyingIsUnheld(m, held, o);
    var e := Erase(m, o);
    forall y <- e.objs ensures ObjOk(e, y) { EraseObjOk(m, o, y); }
    assert ObjOk(m, o);
    EraseAccounted(m, held, o);
  }

  lemma EraseAccounted(m: Mem, held: multiset<nat>, o: nat)
    requires Accounted(m, held + multiset{o}) && o !in held && o < m.next
    requires m.objs[o].kind.Shadow? ==> m.objs[o].kind.under in Erase(m, o).objs
    ensures Accounted(Erase(m, o), held + Below(m.objs[o]))
  {
    var e := Erase(m, o);
    forall y <- e.objs
      ensures e.objs[y].refs == e.objs[y].nres + Over(e, y) + (held + Below(m.objs[o]))[y]
    {
      OverErase(m, o, y, m.next);
    }
  }

  /** Changing only a reference count keeps the shape. */
  lemma SetRefsWellFormed(m: Mem, o: nat, r: int)
    requires WellFormed(m) && o in m.objs
    ensures WellFormed(SetObj(m, o, m.objs[o].(refs := r)))
  {
    var m' := SetObj(m, o, m.objs[o].(refs := r));
    forall y <- m'.objs ensures ObjOk(m', y) {
      assert ObjOk(m, y);
      SameKindsBottom(m, m', y);
    }
  }

  /** A reference count follows the number of its outside holders. */
  lemma SetRefsAccounted(m: Mem, held: multiset<nat>, o: nat, r: int, held': multiset<nat>)
    requires Accounted(m, held) && o in m.objs
    requires r + held[o] == m.objs[o].refs + held'[o]
    requires forall y :: y != o ==> held'[y] == held[y]
    ensures Accounted(SetObj(m, o, m.objs[o].(refs := r)), held')
  {
    var m' := SetObj(m, o, m.objs[o].(refs := r));
    forall y <- m'.objs ensures m'.objs[y].refs == m'.objs[y].nres + Over(m', y) + held'[y] {
      SameKindsOver(m, m', y, m.next);
    }
  }

  lemma DecRefInv(m: Mem, held: multiset<nat>, o: nat)
    requires Inv(m, held + multiset{o}) && !Dies(m.objs[o])
    ensures Inv(SetObj(m, o, m.objs[o].(refs := m.objs[o].refs - 1)), held)
  {
    InvHolds(m, held + multiset{o}, o);
    hide WellFormed, Accounted;
    SetRefsWellFormed(m, o, m.objs[o].refs - 1);
    SetRefsAccounted(m, held + multiset{o}, o, m.objs[o].refs - 1, held);
  }

  /** Dropping one held reference keeps the accounting exact. */
  lemma {:induction false} ReleaseInv(m: Mem, held: multiset<nat>, o: nat)
    requires Inv(m, held + multiset{o})
    ensures Inv(Release(m, o), held)
    decreases o
  {
    var x := m.objs[o];
    assert ObjOk(m, o);
    hide Inv;
    if !Dies(x) {
      DecRefInv(m, held, o);
    } else if x.kind.Shadow? {
      EraseInv(m, held, o);
      ReleaseInv(Erase(m, o), held, x.kind.under);
    } else {
      EraseInv(m, held, o);
      assert held + Below(x) == held;
    }
  }

  // ---------------------------------------------------------------------
  // Release is invisible to the survivors and frees exactly the garbage
  // ---------------------------------------------------------------------

  /** `m'` keeps some of the objects of `m`, each with its kind and its pages. */
  predicate Trimmed(m': Mem, m: Mem) {
    && m'.next == m.next
    && forall x <- m'.objs :: x in m.objs && m'.objs[x].kind == m.objs[x].kind && m'.objs[x].frames == m.objs[x].frames
                             && m'.objs[x].refs <= m.objs[x].refs && m'.objs[x].nres == m.objs[x].nres
  }

  lemma {:induction false} TrimmedChain(m': Mem, m: Mem, x: nat)
    requires WellFormed(m') && Trimmed(m', m) && x in m'.objs
    ensures Chain(m', x) == Chain(m, x)
    ensures forall p :: View(m', x, p) == View(m, x, p)
    decreases x
  {
    assert ObjOk(m', x);
    if m.objs[x].kind.Shadow? { TrimmedChain(m', m, m.objs[x].kind.under); }
  }

  lemma {:induction false} ReleaseTrims(m: Mem, o: nat)
    ensures Trimmed(Release(m, o), m)
    decreases o
  {
    if o in m.objs && Dies(m.objs[o]) && m.objs[o].kind.Shadow? && m.objs[o].kind.under < o {
      ReleaseTrims(Erase(m, o), m.objs[o].kind.under);
    }
  }

  /** Dropping a reference changes the content of no surviving object. */
  lemma ReleaseKeepsViews(m: Mem, held: multiset<nat>, o: nat)
    requires Inv(m, held + multiset{o})
    ensures forall x, p :: x in Release(m, o).objs ==> View(Release(m, o), x, p) == View(m, x, p)
  {
    ReleaseInv(m, held, o);
    ReleaseTrims(m, o);
    forall x, p | x in Release(m, o).objs ensures View(Release(m, o), x, p) == View(m, x, p) {
      TrimmedChain(Release(m, o), m, x);
    }
  }

  lemma {:induction false} ChainLives(m: Mem, x: nat)
    requires WellFormed(m) && x in m.objs
    ensures Chain(m, x) <= m.objs.Keys
    decreases x
  {
    assert ObjOk(m, x);
    if m.objs[x].kind.Shadow? { ChainLives(m, m.objs[x].kind.under); }
  }

  lemma {:induction false} ChainTransitive(m: Mem, x: nat, y: nat)
    requires y in Chain(m, x)
    ensures Chain(m, y) <= Chain(m, x)
    decreases x
  {
    if x != y { ChainTransitive(m, m.objs[x].kind.under, y); }
  }

  lemma {:induction false} CountedHasShadow(m: Mem, o: nat, n: nat) returns (s: nat)
    requires OverBelow(m, o, n) > 0
    ensures IsOver(m, s, o)
    decreases n
  {
    if IsOver(m, n - 1, o) { s := n - 1; } else { s := CountedHasShadow(m, o, n - 1); }
  }

  /** Nothing unreachable is alive: an anonymous or shadow object that exists
      lies on the chain of some outside holder. */
  lemma {:induction false} AliveIsReachable(m: Mem, held: multiset<nat>, o: nat) returns (h: nat)
    requires Inv(m, held) && o in m.objs && !m.objs[o].kind.File?
    ensures h in held && o in Chain(m, h)
    decreases m.next - o
  {
    if o in held {
      h := o;
    } else {
      var s := CountedHasShadow(m, o, m.next);
      assert ObjOk(m, s);
      assert o in Chain(m, s);
      h := AliveIsReachable(m, held, s);
      ChainTransitive(m, h, s);
    }
  }

  ghost predicate Reachable(m: Mem, held: multiset<nat>, o: nat) {
    exists h :: h in held && o in Chain(m, h)
  }

  /** A put frees exactly what it makes unreachable: an anonymous or shadow
      object survives if and only if a remaining holder still reaches it. */
  lemma ReleaseFreesExactlyGarbage(m: Mem, held: multiset<nat>, o: nat, x: nat)
    requires Inv(m, held + multiset{o}) && x in m.objs && !m.objs[x].kind.File?
    ensures x in Release(m, o).objs <==> Reachable(m, held, x)
  {
    var r := Release(m, o);
    ReleaseInv(m, held, o);
    ReleaseTrims(m, o);
    if x in r.objs {
      var h := AliveIsReachable(r, held, x);
      TrimmedChain(r, m, h);
    }
    if Reachable(m, held, x) {
      var h :| h in held && x in Chain(m, h);
      TrimmedChain(r, m, h);
      ChainLives(r, h);
    }
  }

  /** With no holder left but those of files, no anonymous or shadow object is alive. */
  lemma NoHolderNoObject(m: Mem, held: multiset<nat>, o: nat)
    requires Inv(m, held) && o in m.objs
    requires forall h <- held :: m.objs[h].kind.File?
    ensures m.objs[o].kind.File?
  {
    if !m.objs[o].kind.File? {
      var h := AliveIsReachable(m, held, o);
    }
  }
}
