/** All address spaces over one memory. */
module VmSystem {
  import opened Basics
  import opened Memory
  import opened AddressSpace
  import opened Unmap

  /** `spaces` are the address spaces ever made (an exited one is empty); `ext`
      are the references others hold on files (open files, directories). */
  datatype Sys = Sys(mem: Mem, spaces: seq<seq<Area>>, ext: multiset<nat>)

  function HeldBy(ss: seq<seq<Area>>): multiset<nat> {
    if ss == [] then multiset{} else ObjsOf(ss[0]) + HeldBy(ss[1..])
  }

  function Holders(s: Sys): multiset<nat> {
    s.ext + HeldBy(s.spaces)
  }

  /** All holders but the areas of space `i`. */
  function Others(s: Sys, i: nat): multiset<nat>
    requires i < |s.spaces|
  {
    s.ext + HeldBy(s.spaces[i := []])
  }

  /** The invariant of every run: exact accounting, ordered lists, one private
      top per private area, and only files held from outside. */
  ghost predicate SysInv(s: Sys, u: Layout) {
    && Inv(s.mem, Holders(s))
    && (forall i :: 0 <= i < |s.spaces| ==> Ordered(s.spaces[i], u))
    && PrivateTops(s.mem, s.spaces)
    && (forall o <- s.ext :: IsFile(s.mem, o))
  }

  ghost predicate PrivateTops(m: Mem, ss: seq<seq<Area>>) {
    forall i, a :: 0 <= i < |ss| && a in ss[i] && a.priv ==> Sole(m, a.obj)
  }

  /** What space `i` shows at page `v`. */
  function SysAt(s: Sys, i: nat, v: nat): Option<Cell> {
    if i < |s.spaces| then At(s.mem, s.spaces[i], v) else None
  }

  // ---------------------------------------------------------------------
  // Holders
  // ---------------------------------------------------------------------

  lemma {:induction false} HeldBySplit(ss: seq<seq<Area>>, i: nat)
    requires i < |ss|
    ensures HeldBy(ss) == HeldBy(ss[i := []]) + ObjsOf(ss[i])
    decreases |ss|
  {
    if i > 0 {
      assert ss[i := []][1..] == ss[1..][i - 1 := []];
      HeldBySplit(ss[1..], i - 1);
    } else {
      assert ss[0 := []][1..] == ss[1..];
    }
  }

  lemma HeldByUpdate(ss: seq<seq<Area>>, i: nat, l: seq<Area>)
    requires i < |ss|
    ensures HeldBy(ss[i := l]) == HeldBy(ss[i := []]) + ObjsOf(l)
  {
    assert ss[i := l][i := []] == ss[i := []];
    HeldBySplit(ss[i := l], i);
  }

  lemma {:induction false} HeldByAppend(ss: seq<seq<Area>>, l: seq<Area>)
    ensures HeldBy(ss + [l]) == HeldBy(ss) + ObjsOf(l)
    decreases |ss|
  {
    if ss == [] {
      assert ss + [l] == [l] && [l][1..] == [];
    } else {
      assert (ss + [l])[1..] == ss[1..] + [l];
      HeldByAppend(ss[1..], l);
    }
  }

  lemma {:induction false} HeldByMember(ss: seq<seq<Area>>, i: nat, a: Area)
    requires i < |ss| && a in ss[i]
    ensures a.obj in HeldBy(ss)
    decreases |ss|
  {
    if i == 0 { ObjsOfMember(ss[0], a); } else { HeldByMember(ss[1..], i - 1, a); }
  }

  lemma {:induction false} HeldBySpace(ss: seq<seq<Area>>, i: nat)
    requires i < |ss|
    ensures ObjsOf(ss[i]) <= HeldBy(ss)
  {
    HeldBySplit(ss, i);
  }

  /** The invariant seen from one space. */
  lemma SpaceBacked(s: Sys, u: Layout, i: nat)
    requires SysInv(s, u) && i < |s.spaces|
    ensures Backed(s.mem, Others(s, i), s.spaces[i]) && Ordered(s.spaces[i], u) && Proper(s.spaces[i])
  {
    hide Inv, Sole;
    HeldBySplit(s.spaces, i);
    Shuffle(s.ext, HeldBy(s.spaces[i := []]), ObjsOf(s.spaces[i]));
  }

  /** A new memory and a new list for space `i` that everyone else can live with. */
  ghost predicate Replaceable(s: Sys, i: nat, m: Mem, l: seq<Area>, u: Layout)
    requires i < |s.spaces|
  {
    Backed(m, Others(s, i), l) && Carries(s.mem, m, Others(s, i)) && Ordered(l, u)
  }

  function Replaced(s: Sys, i: nat, m: Mem, l: seq<Area>): Sys
    requires i < |s.spaces|
  {
    s.(mem := m, spaces := s.spaces[i := l])
  }

  lemma OtherIsHeld(s: Sys, i: nat, j: nat, a: Area)
    requires i < |s.spaces| && j < |s.spaces| && i != j && a in s.spaces[j]
    ensures a.obj in Others(s, i)
  {
    HeldByMember(s.spaces[i := []], j, a);
  }

  lemma ReplaceTops(s: Sys, i: nat, m: Mem, l: seq<Area>, u: Layout)
    requires PrivateTops(s.mem, s.spaces) && i < |s.spaces| && Replaceable(s, i, m, l, u)
    ensures PrivateTops(m, s.spaces[i := l])
  {
    hide Inv, Sole, View, IsFile, Ordered, Others;
    var ss := s.spaces[i := l];
    forall j, a: Area | 0 <= j < |ss| && a in ss[j] && a.priv ensures Sole(m, a.obj) {
      if j != i { OtherIsHeld(s, i, j, a); }
    }
  }

  lemma ReplaceHolders(s: Sys, i: nat, m: Mem, l: seq<Area>)
    requires i < |s.spaces|
    ensures Holders(Replaced(s, i, m, l)) == Others(s, i) + ObjsOf(l)
  {
    HeldByUpdate(s.spaces, i, l);
  }

  lemma ReplaceInv(s: Sys, i: nat, m: Mem, l: seq<Area>, u: Layout)
    requires SysInv(s, u) && i < |s.spaces| && Replaceable(s, i, m, l, u)
    ensures SysInv(Replaced(s, i, m, l), u)
  {
    hide Inv, Sole, View, IsFile, PrivateTops, Ordered, Holders;
    ReplaceHolders(s, i, m, l);
    ReplaceTops(s, i, m, l, u);
    forall o <- s.ext ensures IsFile(m, o) { assert o in Others(s, i); }
  }

  /** Nobody else sees the replacement. */
  lemma ReplaceAt(s: Sys, i: nat, m: Mem, l: seq<Area>, j: nat, v: nat)
    requires i < |s.spaces| && Carries(s.mem, m, Others(s, i))
    ensures SysAt(Replaced(s, i, m, l), j, v) == if j == i then At(m, l, v) else SysAt(s, j, v)
  {
    if j != i && j < |s.spaces| {
      hide View, Sole, IsFile;
      HeldBySpace(s.spaces[i := []], j);
      CarriesLess(s.mem, m, Others(s, i), multiset{} + ObjsOf(s.spaces[j]));
      AtCarried(s.mem, m, multiset{}, s.spaces[j], v);
    }
  }

  lemma CarriesLess(m: Mem, m': Mem, h: multiset<nat>, held: multiset<nat>)
    requires Carries(m, m', h) && held <= h
    ensures Carries(m, m', held)
  {
    assert forall x <- held :: x in h;
  }
}
