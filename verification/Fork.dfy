/** Backing a new mapping with objects, and duplicating an address space. */
module Fork {
  import opened Basics
  import opened Memory
  import opened PageIn
  import opened AddressSpace
  import opened Unmap

  /** `m'` has everything `m` has, showing the same, and possibly more. */
  ghost predicate Extends(m: Mem, m': Mem) {
    && m.next <= m'.next
    && (forall x <- m.objs :: x in m'.objs && m'.objs[x].kind == m.objs[x].kind)
    && (forall x, p :: x in m.objs ==> View(m', x, p) == View(m, x, p))
  }

  lemma ExtendsTrans(m: Mem, m1: Mem, m2: Mem)
    requires Extends(m, m1) && Extends(m1, m2)
    ensures Extends(m, m2)
  {
  }

  lemma AddRefExtends(m: Mem, o: nat)
    requires o in m.objs
    ensures Extends(m, AddRef(m, o))
  {
    forall x, p | x in m.objs ensures View(AddRef(m, o), x, p) == View(m, x, p) { AddRefSameViews(m, o, x, p); }
  }

  lemma AddObjExtends(m: Mem, k: Kind)
    requires WellFormed(m)
    ensures Extends(m, AddObj(m, k))
  {
    WellFormedIsFresh(m);
    forall x, p | x in m.objs ensures View(AddObj(m, k), x, p) == View(m, x, p) { AddObjChain(m, k, x); }
  }

  // ---------------------------------------------------------------------
  // One more holder of what an area shows
  // ---------------------------------------------------------------------

  /** The child's side of one area: a shadow over the parent's object, or the
      shared object itself; either way the object gains a reference. */
  function ChildOne(m: Mem, a: Area): Cut
    requires a.obj in m.objs
  {
    if a.priv then Cut(AddShadow(AddRef(m, a.obj), a.obj), [a.(obj := m.next)])
    else Cut(AddRef(m, a.obj), [a])
  }

  /** The parent's side: its private areas move to new shadows as well. */
  function ParentOne(m: Mem, a: Area): Cut
    requires a.obj in m.objs
  {
    if a.priv then Cut(AddShadow(m, a.obj), [a.(obj := m.next)]) else Cut(m, [a])
  }

  function ChildAll(m: Mem, l: seq<Area>): Cut
    decreases |l|
  {
    if l == [] || l[0].obj !in m.objs then Cut(m, l)
    else
      var c := ChildOne(m, l[0]);
      var r := ChildAll(c.mem, l[1..]);
      Cut(r.mem, c.areas + r.areas)
  }

  function ParentAll(m: Mem, l: seq<Area>): Cut
    decreases |l|
  {
    if l == [] || l[0].obj !in m.objs then Cut(m, l)
    else
      var c := ParentOne(m, l[0]);
      var r := ParentAll(c.mem, l[1..]);
      Cut(r.mem, c.areas + r.areas)
  }

  /** The new area is a copy that shows the same; its top is its own. */
  ghost predicate Copies(m: Mem, m': Mem, a: Area, b: Area) {
    && b == a.(obj := b.obj) && (!a.priv ==> b.obj == a.obj) && b.obj in m'.objs
    && (a.priv ==> b.obj >= m.next && Sole(m', b.obj))
    && (forall p :: View(m', b.obj, p) == View(m, a.obj, p))
  }

  lemma ShadowCopies(m: Mem, m1: Mem, a: Area)
    requires WellFormed(m1) && m1.next == m.next && a.priv && a.obj in m1.objs
    requires forall p :: View(m1, a.obj, p) == View(m, a.obj, p)
    ensures Copies(m, AddShadow(m1, a.obj), a, a.(obj := m.next))
  {
    AddShadowViews(m1, a.obj);
  }

  lemma ChildOneOk(m: Mem, a: Area, held: multiset<nat>)
    requires Inv(m, held) && a.obj in m.objs
    ensures var c := ChildOne(m, a);
            && |c.areas| == 1 && Copies(m, c.mem, a, c.areas[0])
            && Inv(c.mem, held + multiset{c.areas[0].obj})
            && Extends(m, c.mem)
  {
    var m1 := AddRef(m, a.obj);
    AddRefExtends(m, a.obj);
    AddRefInv(m, held, a.obj);
    if a.priv {
      var k := Shadow(a.obj, CachedBottom(m1, a.obj));
      assert WellFormed(m1);
      hide Inv, WellFormed;
      AddShadowInv(m1, a.obj, held);
      AddObjExtends(m1, k);
      ExtendsTrans(m, m1, AddShadow(m1, a.obj));
      ShadowCopies(m, m1, a);
    }
  }

  lemma ParentOneOk(m: Mem, a: Area, held: multiset<nat>)
    requires Inv(m, held + multiset{a.obj}) && a.obj in m.objs
    ensures var c := ParentOne(m, a);
            && |c.areas| == 1 && Copies(m, c.mem, a, c.areas[0])
            && Inv(c.mem, held + multiset{c.areas[0].obj})
            && Extends(m, c.mem)
  {
    if a.priv {
      assert WellFormed(m);
      hide Inv, WellFormed;
      AddShadowInv(m, a.obj, held);
      AddObjExtends(m, Shadow(a.obj, CachedBottom(m, a.obj)));
      ShadowCopies(m, m, a);
    }
  }

  // ---------------------------------------------------------------------
  // The two loops
  // ---------------------------------------------------------------------

  ghost predicate CopiesAll(m: Mem, m': Mem, l: seq<Area>, l': seq<Area>) {
    |l'| == |l| && forall i :: 0 <= i < |l| ==> Copies(m, m', l[i], l'[i])
  }

  predicate Live(m: Mem, l: seq<Area>) {
    forall a <- l :: a.obj in m.objs
  }

  /** Objects other than those of `l` keep their one holder. */
  predicate KeepsSole(m: Mem, m': Mem, l: seq<Area>) {
    forall t <- m.objs :: Sole(m, t) && (forall a <- l :: a.obj != t) ==> Sole(m', t)
  }

  lemma OldIsOld(m: Mem, held: multiset<nat>, l: seq<Area>)
    requires Inv(m, held) && Live(m, l)
    ensures forall a <- l :: a.obj < m.next
  {
    forall a <- l ensures a.obj < m.next { InvObjOk(m, held, a.obj); }
  }

  /** A copy stays a copy while more objects are added. */
  lemma CopiesLater(m: Mem, m1: Mem, m2: Mem, a: Area, b: Area, l: seq<Area>)
    requires Copies(m, m1, a, b) && Extends(m1, m2) && KeepsSole(m1, m2, l)
    requires forall x <- l :: x.obj < m.next
    ensures Copies(m, m2, a, b)
  {
    if a.priv { assert forall x <- l :: x.obj != b.obj; }
  }

  lemma CopiesEarlier(m: Mem, m1: Mem, m2: Mem, a: Area, b: Area)
    requires Copies(m1, m2, a, b) && Extends(m, m1) && a.obj in m.objs
    ensures Copies(m, m2, a, b)
  {
    forall p ensures View(m2, b.obj, p) == View(m, a.obj, p) {}
  }

  lemma CopiesCons(m: Mem, m1: Mem, m2: Mem, l: seq<Area>, b: Area, l': seq<Area>)
    requires l != [] && Live(m, l) && Copies(m, m1, l[0], b) && CopiesAll(m1, m2, l[1..], l')
    requires Extends(m, m1) && Extends(m1, m2) && KeepsSole(m1, m2, l[1..])
    requires forall a <- l :: a.obj < m.next
    ensures CopiesAll(m, m2, l, [b] + l')
  {
    hide Extends, KeepsSole, Copies;
    CopiesLater(m, m1, m2, l[0], b, l[1..]);
    forall i | 0 <= i < |l| ensures Copies(m, m2, l[i], ([b] + l')[i]) {
      if i > 0 {
        assert l[1..][i - 1] == l[i];
        CopiesEarlier(m, m1, m2, l[i], l'[i - 1]);
      }
    }
  }

  lemma ChildOneSole(m: Mem, a: Area, t: nat)
    requires a.obj in m.objs && Sole(m, t) && t != a.obj && t < m.next
    ensures Sole(ChildOne(m, a).mem, t)
  {
  }

  /** The child's list copies the parent's, with the accounting exact. */
  lemma {:induction false} ChildAllOk(m: Mem, l: seq<Area>, held: multiset<nat>)
    requires Inv(m, held) && Live(m, l)
    ensures var c := ChildAll(m, l);
            && CopiesAll(m, c.mem, l, c.areas)
            && Inv(c.mem, held + ObjsOf(c.areas))
            && Extends(m, c.mem)
            && KeepsSole(m, c.mem, l)
    decreases |l|
  {
    hide Inv, View, WellFormed, Copies;
    if l == [] {
      assert held + ObjsOf([]) == held;
    } else {
      OldIsOld(m, held, l);
      ChildOneOk(m, l[0], held);
      var c := ChildOne(m, l[0]);
      var b := c.areas[0];
      assert c.areas == [b];
      forall a <- l[1..] ensures a.obj in c.mem.objs {}
      ChildAllOk(c.mem, l[1..], held + multiset{b.obj});
      var r := ChildAll(c.mem, l[1..]);
      hide CopiesAll;
      ExtendsTrans(m, c.mem, r.mem);
      CopiesCons(m, c.mem, r.mem, l, b, r.areas);
      ObjsOfAppend([b], r.areas);
      ObjsOfOne(b);
      Shuffle(held, multiset{b.obj}, ObjsOf(r.areas));
      ChildKeepsSole(m, held, l, c.mem, r.mem);
    }
  }

  lemma ChildKeepsSole(m: Mem, held: multiset<nat>, l: seq<Area>, m1: Mem, m2: Mem)
    requires l != [] && l[0].obj in m.objs && Inv(m, held)
    requires m1 == ChildOne(m, l[0]).mem && KeepsSole(m1, m2, l[1..])
    ensures KeepsSole(m, m2, l)
  {
    hide Inv, ChildOne;
    forall t <- m.objs | Sole(m, t) && (forall a <- l :: a.obj != t) ensures Sole(m2, t) {
      InvObjOk(m, held, t);
      ChildOneSole(m, l[0], t);
    }
  }

  /** Moving the parent to new shadows keeps the accounting and every other top. */
  lemma {:induction false} ParentAllOk(m: Mem, l: seq<Area>, held: multiset<nat>)
    requires Inv(m, held + ObjsOf(l)) && Live(m, l)
    ensures var c := ParentAll(m, l);
            && CopiesAll(m, c.mem, l, c.areas)
            && Inv(c.mem, held + ObjsOf(c.areas))
            && Extends(m, c.mem)
            && KeepsSole(m, c.mem, [])
    decreases |l|
  {
    hide Inv, View, WellFormed, Copies;
    if l != [] {
      OldIsOld(m, held + ObjsOf(l), l);
      Shuffle(held, multiset{l[0].obj}, ObjsOf(l[1..]));
      ParentOneOk(m, l[0], held + ObjsOf(l[1..]));
      var c := ParentOne(m, l[0]);
      var b := c.areas[0];
      assert c.areas == [b];
      forall a <- l[1..] ensures a.obj in c.mem.objs {}
      Shuffle(held, ObjsOf(l[1..]), multiset{b.obj});
      ParentAllOk(c.mem, l[1..], held + multiset{b.obj});
      var r := ParentAll(c.mem, l[1..]);
      hide CopiesAll;
      ExtendsTrans(m, c.mem, r.mem);
      CopiesCons(m, c.mem, r.mem, l, b, r.areas);
      ObjsOfAppend([b], r.areas);
      ObjsOfOne(b);
      Shuffle(held, multiset{b.obj}, ObjsOf(r.areas));
      ParentKeepsSole(m, held + ObjsOf(l), l[0], c.mem, r.mem);
    }
  }

  lemma ParentKeepsSole(m: Mem, held: multiset<nat>, a: Area, m1: Mem, m2: Mem)
    requires a.obj in m.objs && Inv(m, held)
    requires m1 == ParentOne(m, a).mem && KeepsSole(m1, m2, [])
    ensures KeepsSole(m, m2, [])
  {
    hide Inv;
    forall t <- m.objs | Sole(m, t) ensures Sole(m2, t) {
      InvObjOk(m, held, t);
      assert Sole(m1, t);
    }
  }

  /** A list of copies shows what the original shows. */
  lemma {:induction false} CopiesAt(m: Mem, m': Mem, l: seq<Area>, l': seq<Area>, v: nat)
    requires CopiesAll(m, m', l, l')
    ensures At(m', l', v) == At(m, l, v)
    decreases |l|
  {
    if l != [] {
      assert Copies(m, m', l[0], l'[0]);
      forall i | 0 <= i < |l[1..]| ensures Copies(m, m', l[1..][i], l'[1..][i]) {
        assert Copies(m, m', l[i + 1], l'[i + 1]);
      }
      CopiesAt(m, m', l[1..], l'[1..], v);
      AtHead(m, l, v);
      AtHead(m', l', v);
    }
  }

  lemma CopiesOrdered(m: Mem, m': Mem, l: seq<Area>, l': seq<Area>, u: Layout)
    requires CopiesAll(m, m', l, l') && Ordered(l, u)
    ensures Ordered(l', u)
  {
    forall i | 0 <= i < |l| ensures l'[i] == l[i].(obj := l'[i].obj) { assert Copies(m, m', l[i], l'[i]); }
  }

  // ---------------------------------------------------------------------
  // Backing a new mapping
  // ---------------------------------------------------------------------

  /** The object behind a new mapping: anonymous, or the file's own; a private
      mapping goes through a new shadow over it. */
  function BackWith(m: Mem, file: Option<nat>, priv: bool): (Mem, nat)
    requires file.Some? ==> file.value in m.objs
  {
    var m1 := if file.Some? then AddRef(m, file.value) else AddObj(m, Anon);
    var base := if file.Some? then file.value else m.next;
    if priv then (AddShadow(m1, base), m1.next) else (m1, base)
  }

  function SourcePage(m: Mem, file: Option<nat>, p: nat): Option<Page> {
    if file.Some? then View(m, file.value, p) else Some(ZeroPage())
  }

  lemma BaseOk(m: Mem, file: Option<nat>, held: multiset<nat>)
    requires Inv(m, held) && (file.Some? ==> file.value in m.objs && m.objs[file.value].kind.File?)
    ensures var (m1, base) := BackWith(m, file, false);
            && Inv(m1, held + multiset{base}) && Extends(m, m1) && base in m1.objs && WellFormed(m1)
            && (forall p :: View(m1, base, p) == SourcePage(m, file, p))
            && KeepsSole(m, m1, [])
  {
    if file.Some? {
      AddRefInv(m, held, file.value);
      AddRefExtends(m, file.value);
    } else {
      assert held + Below(Obj(Anon, 1, 0, map[])) == held;
      AddObjInv(m, Anon, held);
      AddObjExtends(m, Anon);
      NewKeepsSole(m, held, Anon);
    }
  }

  lemma NewKeepsSole(m: Mem, held: multiset<nat>, k: Kind)
    requires Inv(m, held)
    ensures KeepsSole(m, AddObj(m, k), [])
  {
    forall t <- m.objs | Sole(m, t) ensures Sole(AddObj(m, k), t) { InvObjOk(m, held, t); }
  }

  lemma KeepsSoleTrans(m: Mem, m1: Mem, m2: Mem)
    requires Extends(m, m1) && KeepsSole(m, m1, []) && KeepsSole(m1, m2, [])
    ensures KeepsSole(m, m2, [])
  {
  }

  /** The new object shows zeroes or the file, belongs to the new area alone if
      private, and nobody else notices. */
  lemma BackWithOk(m: Mem, file: Option<nat>, priv: bool, held: multiset<nat>)
    requires Inv(m, held) && (file.Some? ==> file.value in m.objs && m.objs[file.value].kind.File?)
    ensures var (m', o) := BackWith(m, file, priv);
            && Inv(m', held + multiset{o}) && Extends(m, m') && (priv ==> Sole(m', o))
            && (forall p :: View(m', o, p) == SourcePage(m, file, p))
            && KeepsSole(m, m', [])
  {
    BaseOk(m, file, held);
    if priv {
      var (m1, base) := BackWith(m, file, false);
      hide Inv, WellFormed, SourcePage;
      var k := Shadow(base, CachedBottom(m1, base));
      AddShadowInv(m1, base, held);
      AddObjExtends(m1, k);
      ExtendsTrans(m, m1, AddShadow(m1, base));
      AddShadowViews(m1, base);
      NewKeepsSole(m1, held + multiset{base}, k);
      KeepsSoleTrans(m, m1, AddShadow(m1, base));
    }
  }
}
