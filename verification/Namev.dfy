/** Path resolution: what dir_namev and open_namev of namev.c mean, and which
    vnode references they leave behind. */
module Namev {
  datatype Errno = EINVAL | ENOENT | ENOTDIR | ENAMETOOLONG | OtherErr(code: int)

  datatype Look = Found(vn: nat) | Err(e: Errno)

  /** The mounted file system: `find` and `make` are the lookup and create
      operations of a directory's own implementation, arbitrary functions here. */
  datatype Fs = Fs(isDir: nat -> bool, find: (nat, string) -> Look, make: (nat, string) -> Look, root: nat,
                   maxPath: nat, nameLen: nat)

  /** lookup */
  function Lookup(fs: Fs, dir: nat, name: string): Look {
    if !fs.isDir(dir) then Err(ENOTDIR) else fs.find(dir, name)
  }

  // ---------------------------------------------------------------------
  // Components of a path
  // ---------------------------------------------------------------------

  function WordLen(s: string): (n: nat)
    ensures n <= |s| && (n < |s| ==> s[n] == '/') && '/' !in s[..n]
  {
    if s == [] || s[0] == '/' then 0
    else
      var n := 1 + WordLen(s[1..]);
      assert s[..n] == [s[0]] + s[1..][..n - 1];
      n
  }

  /** The maximal runs without a slash. */
  function Components(s: string): (r: seq<string>)
    ensures forall c <- r :: c != [] && '/' !in c
  {
    if s == [] then []
    else if s[0] == '/' then Components(s[1..])
    else [s[..WordLen(s)]] + Components(s[WordLen(s)..])
  }

  lemma {:induction false} WordLenApp(a: string, b: string)
    requires b != [] ==> b[0] == '/'
    ensures WordLen(a + b) == WordLen(a)
  {
    if a == [] {
      assert a + b == b;
    } else {
      assert (a + b)[1..] == a[1..] + b;
      WordLenApp(a[1..], b);
    }
  }

  /** A slash separates: components before and after it do not interfere. */
  lemma {:induction false} ComponentsSplit(a: string, b: string)
    ensures Components(a + "/" + b) == Components(a) + Components(b)
    decreases |a|
  {
    if a == [] {
      assert a + "/" + b == "/" + b;
      assert ("/" + b)[1..] == b;
    } else if a[0] == '/' {
      assert (a + "/" + b)[1..] == a[1..] + "/" + b;
      ComponentsSplit(a[1..], b);
    } else {
      var n := WordLen(a);
      assert a + "/" + b == a + ("/" + b);
      WordLenApp(a, "/" + b);
      assert (a + "/" + b)[..n] == a[..n];
      assert (a + "/" + b)[n..] == a[n..] + "/" + b;
      ComponentsSplit(a[n..], b);
    }
  }

  /** Repeating a slash or adding one at the end changes no component. */
  lemma SlashesDoNotMatter(a: string, b: string)
    ensures Components(a + "/" + "/" + b) == Components(a + "/" + b)
    ensures Components(a + "/") == Components(a)
  {
    assert a + "/" + "/" + b == a + "/" + ("/" + b);
    ComponentsSplit(a, "/" + b);
    assert ("/" + b)[1..] == b;
    ComponentsSplit(a, b);
    assert a + "/" + "" == a + "/";
    ComponentsSplit(a, "");
  }

  lemma {:induction false} AllSlashes(s: string)
    ensures Components(s) == [] <==> forall c <- s :: c == '/'
  {
    if s != [] {
      assert s[0] in s && s == [s[0]] + s[1..];
      assert (forall c <- s[1..] :: c in s) && forall c <- s :: c == s[0] || c in s[1..];
      if s[0] == '/' { AllSlashes(s[1..]); }
    }
  }

  // ---------------------------------------------------------------------
  // Meaning
  // ---------------------------------------------------------------------

  /** Where a path starts: at the root if it is absolute. */
  function Start(fs: Fs, base: nat, path: string): nat {
    if path != [] && path[0] == '/' then fs.root else base
  }

  /** Looking up one name after another. */
  function Fold(fs: Fs, v: nat, names: seq<string>): Look
    decreases |names|
  {
    if names == [] then Found(v)
    else
      var r := Lookup(fs, v, names[0]);
      if r.Err? then r else Fold(fs, r.vn, names[1..])
  }

  datatype Parsed = Fail(e: Errno) | Root | Parent(dir: nat, name: string)

  /** Result, and the references the call adds to the ones there were. */
  datatype Effect = Effect(res: Parsed, net: multiset<nat>)

  /** dir_namev's loop over components; `owned` is needToDecrease: the reference to
      `cur` was taken by this call. */
  function Walk(fs: Fs, cur: nat, names: seq<string>, owned: bool): Effect
    requires names != []
    decreases |names|
  {
    if |names| == 1 then
      if |names[0]| > fs.nameLen then Effect(Fail(ENAMETOOLONG), multiset{})
      else Effect(Parent(cur, names[0]), multiset{cur})
    else if |names[0]| > fs.nameLen then Effect(Fail(ENAMETOOLONG), if owned then multiset{cur} else multiset{})
    else
      match Lookup(fs, cur, names[0])
      case Err(e) => Effect(Fail(e), multiset{})
      case Found(v) => Walk(fs, v, names[1..], true)
  }

  function DirNamev(fs: Fs, base: nat, path: string): Effect {
    if path == [] || |path| > fs.maxPath then Effect(Fail(EINVAL), multiset{})
    else Resolve(fs, Start(fs, base, path), Components(path))
  }

  /** Without components, the path is the root itself. */
  function Resolve(fs: Fs, v: nat, names: seq<string>): Effect {
    if names == [] then Effect(Root, multiset{fs.root}) else Walk(fs, v, names, false)
  }

  predicate Fits(fs: Fs, names: seq<string>) {
    forall c <- names :: |c| <= fs.nameLen
  }

  function Front(names: seq<string>): seq<string>
    requires names != []
  {
    names[..|names| - 1]
  }

  /** The result of folding `names`, as dir_namev reports it. */
  function Folded(r: Look, last: string): Effect {
    match r
    case Err(e) => Effect(Fail(e), multiset{})
    case Found(v) => Effect(Parent(v, last), multiset{v})
  }

  lemma {:induction false} WalkIsFold(fs: Fs, cur: nat, names: seq<string>, owned: bool)
    requires names != [] && Fits(fs, names)
    ensures Walk(fs, cur, names, owned) == Folded(Fold(fs, cur, Front(names)), names[|names| - 1])
    decreases |names|
  {
    assert names[0] in names;
    if |names| > 1 {
      assert Front(names)[1..] == Front(names[1..]);
      var r := Lookup(fs, cur, names[0]);
      if r.Found? { WalkIsFold(fs, r.vn, names[1..], true); }
    }
  }

  /** For every path of legal length whose components fit, dir_namev yields the fold
      of lookup over all but the last component, and the last component; it leaves
      one reference, to that directory, or none if it fails. */
  lemma DirNamevIsFold(fs: Fs, base: nat, path: string)
    requires 0 < |path| <= fs.maxPath && Fits(fs, Components(path)) && Components(path) != []
    ensures var names := Components(path);
            DirNamev(fs, base, path) == Folded(Fold(fs, Start(fs, base, path), Front(names)), names[|names| - 1])
  {
    WalkIsFold(fs, Start(fs, base, path), Components(path), false);
  }

  /** Two spellings with the same components from the same start mean the same. */
  lemma SpellingDoesNotMatter(fs: Fs, base: nat, a: string, b: string)
    requires Components(a) == Components(b) && Start(fs, base, a) == Start(fs, base, b)
    requires 0 < |a| <= fs.maxPath && 0 < |b| <= fs.maxPath
    ensures DirNamev(fs, base, a) == DirNamev(fs, base, b)
  {
  }

  // ---------------------------------------------------------------------
  // References
  // ---------------------------------------------------------------------

  /** Component `i` is too long, is neither the first nor the last, and is reached. */
  predicate StopsLate(fs: Fs, v: nat, names: seq<string>, i: nat) {
    && 1 <= i < |names| - 1 && |names[i]| > fs.nameLen
    && Fits(fs, names[..i]) && Fold(fs, v, names[..i]).Found?
  }

  /** The references a caller would expect: one on the result, none on failure. */
  function Expected(res: Parsed, root: nat): multiset<nat> {
    match res
    case Fail(_) => multiset{}
    case Root => multiset{root}
    case Parent(d, _) => multiset{d}
  }

  /** A walk that does not own `cur` keeps its references straight exactly when it
      does not stop at an over-long middle component. */
  lemma {:induction false} WalkRefsIff(fs: Fs, cur: nat, names: seq<string>, owned: bool)
    requires names != []
    ensures Walk(fs, cur, names, owned).net == Expected(Walk(fs, cur, names, owned).res, fs.root)
       <==> !((owned && |names| > 1 && |names[0]| > fs.nameLen) || exists i: nat :: StopsLate(fs, cur, names, i))
    decreases |names|
  {
    if |names| > 1 && |names[0]| > fs.nameLen {
      forall i: nat ensures !StopsLate(fs, cur, names, i) {
        if 1 <= i < |names| - 1 { assert names[0] in names[..i]; }
      }
    } else if |names| > 1 {
      var r := Lookup(fs, cur, names[0]);
      forall i: nat | 1 <= i < |names| - 1
        ensures StopsLate(fs, cur, names, i) <==>
                r.Found? && (if i == 1 then |names[1]| > fs.nameLen else StopsLate(fs, r.vn, names[1..], i - 1)) {
        StopsLater(fs, cur, names, i);
      }
      if r.Found? {
        WalkRefsIff(fs, r.vn, names[1..], true);
        StopsShift(fs, cur, r.vn, names);
      }
    }
  }

  lemma StopsLater(fs: Fs, cur: nat, names: seq<string>, i: nat)
    requires 1 <= i < |names| - 1 && |names[0]| <= fs.nameLen
    ensures var r := Lookup(fs, cur, names[0]);
            StopsLate(fs, cur, names, i) <==>
              r.Found? && (if i == 1 then |names[1]| > fs.nameLen else StopsLate(fs, r.vn, names[1..], i - 1))
  {
    var front, rest := names[..i], names[1..][..i - 1];
    assert front == [names[0]] + rest && front[1..] == rest;
    assert Fits(fs, front) <==> Fits(fs, rest) by {
      assert forall c <- front :: c == names[0] || c in rest;
      assert forall c <- rest :: c in front;
    }
    var r := Lookup(fs, cur, names[0]);
    assert Fold(fs, cur, front) == if r.Err? then r else Fold(fs, r.vn, rest);
    if i == 1 { assert rest == []; } else { assert names[1..][i - 1] == names[i]; }
  }

  lemma StopsShift(fs: Fs, cur: nat, v: nat, names: seq<string>)
    requires |names| > 1 && |names[0]| <= fs.nameLen && Lookup(fs, cur, names[0]) == Found(v)
    ensures (exists i: nat :: StopsLate(fs, cur, names, i))
       <==> (|names| > 2 && |names[1]| > fs.nameLen) || exists i: nat :: StopsLate(fs, v, names[1..], i)
  {
    forall i: nat | 1 <= i < |names| - 1
      ensures StopsLate(fs, cur, names, i) <==>
              (if i == 1 then |names[1]| > fs.nameLen else StopsLate(fs, v, names[1..], i - 1)) {
      StopsLater(fs, cur, names, i);
    }
    if i: nat :| StopsLate(fs, v, names[1..], i) {
      assert StopsLate(fs, cur, names, i + 1);
    }
    if |names| > 2 && |names[1]| > fs.nameLen {
      assert StopsLate(fs, cur, names, 1);
    }
  }

  /** Some over-long component is reached that is neither first nor last. */
  ghost predicate Leaks(fs: Fs, v: nat, names: seq<string>) {
    exists i: nat :: StopsLate(fs, v, names, i)
  }

  lemma ResolveRefsIff(fs: Fs, v: nat, names: seq<string>)
    ensures var r := Resolve(fs, v, names); r.net == Expected(r.res, fs.root) <==> !Leaks(fs, v, names)
  {
    hide Fold, Lookup;
    if names != [] { WalkRefsIff(fs, v, names, false); }
  }

  /** dir_namev leaves one reference on its result and none on failure, exactly when
      it does not stop at an over-long component that is neither first nor last. */
  lemma DirNamevRefsIff(fs: Fs, base: nat, path: string)
    ensures var r := DirNamev(fs, base, path);
            (r.net == Expected(r.res, fs.root)
             <==> !(0 < |path| <= fs.maxPath && Leaks(fs, Start(fs, base, path), Components(path))))
  {
    hide Resolve, Leaks;
    ResolveRefsIff(fs, Start(fs, base, path), Components(path));
  }

  // ---------------------------------------------------------------------
  // open_namev
  // ---------------------------------------------------------------------

  datatype Opened = Opened(res: Look, net: multiset<nat>)

  function Open(fs: Fs, base: nat, path: string, creat: bool): Opened {
    var d := DirNamev(fs, base, path);
    match d.res
    case Fail(e) => Opened(Err(e), d.net)
    case Root => Opened(Found(fs.root), multiset{fs.root})
    case Parent(dir, name) => OpenIn(fs, dir, name, creat)
  }

  function OpenIn(fs: Fs, dir: nat, name: string, creat: bool): Opened {
    var r := Lookup(fs, dir, name);
    var r' := if r == Err(ENOENT) && creat then fs.make(dir, name) else r;
    Opened(r', if r'.Found? then multiset{r'.vn} else multiset{})
  }

  lemma {:induction false} FoldSnoc(fs: Fs, v: nat, names: seq<string>, last: string)
    ensures Fold(fs, v, names + [last]) ==
            (var r := Fold(fs, v, names); if r.Err? then r else Lookup(fs, r.vn, last))
    decreases |names|
  {
    if names == [] {
      assert names + [last] == [last] && [last][1..] == [];
    } else {
      assert (names + [last])[0] == names[0] && (names + [last])[1..] == names[1..] + [last];
      var r := Lookup(fs, v, names[0]);
      if r.Found? { FoldSnoc(fs, r.vn, names[1..], last); }
    }
  }

  /** Without O_CREAT, open_namev is the fold of lookup over all components, with one
      reference on the vnode found. */
  lemma OpenIsFold(fs: Fs, base: nat, path: string)
    requires 0 < |path| <= fs.maxPath && Fits(fs, Components(path))
    ensures var r := Fold(fs, Start(fs, base, path), Components(path));
            Open(fs, base, path, false) == Opened(r, if r.Found? then multiset{r.vn} else multiset{})
  {
    var names := Components(path);
    if names == [] {
      AllSlashes(path);
      assert path[0] in path;
    } else {
      DirNamevIsFold(fs, base, path);
      assert Front(names) + [names[|names| - 1]] == names;
      FoldSnoc(fs, Start(fs, base, path), Front(names), names[|names| - 1]);
    }
  }

  /** O_CREAT matters only when the directory is there and the name is not. */
  lemma CreatOnlyIfMissing(fs: Fs, base: nat, path: string)
    requires 0 < |path| <= fs.maxPath && Fits(fs, Components(path)) && Components(path) != []
    ensures var names := Components(path);
            var d := Fold(fs, Start(fs, base, path), Front(names));
            var last := names[|names| - 1];
            Open(fs, base, path, true) ==
            (if d.Found? && Lookup(fs, d.vn, last) == Err(ENOENT)
             then Opened(fs.make(d.vn, last), if fs.make(d.vn, last).Found? then multiset{fs.make(d.vn, last).vn}
                         else multiset{})
             else Open(fs, base, path, false))
  {
    DirNamevIsFold(fs, base, path);
  }

  /** A path on which a reference is left behind: a directory that is found, an
      over-long name, and one more name. */
  lemma LeftBehind(fs: Fs, base: nat, first: string, long: string, last: string)
    requires first != [] && '/' !in first && |first| <= fs.nameLen && last != [] && '/' !in last
    requires '/' !in long && |long| > fs.nameLen
    requires |first + "/" + (long + "/" + last)| <= fs.maxPath && Lookup(fs, base, first).Found?
    ensures DirNamev(fs, base, first + "/" + (long + "/" + last)) ==
            Effect(Fail(ENAMETOOLONG), multiset{Lookup(fs, base, first).vn})
  {
    Word(first);
    Word(long);
    Word(last);
    ComponentsSplit(long, last);
    ComponentsSplit(first, long + "/" + last);
    assert (first + "/" + (long + "/" + last))[0] == first[0];
    assert first[0] in first;
    hide Components;
    LeftBehindWalk(fs, base, first, long, last);
  }

  lemma LeftBehindWalk(fs: Fs, base: nat, first: string, long: string, last: string)
    requires |first| <= fs.nameLen && |long| > fs.nameLen && Lookup(fs, base, first).Found?
    ensures Walk(fs, base, [first] + ([long] + [last]), false) ==
            Effect(Fail(ENAMETOOLONG), multiset{Lookup(fs, base, first).vn})
  {
    var names := [first] + ([long] + [last]);
    assert names[1..] == [long] + [last];
    var v := Lookup(fs, base, first).vn;
    assert Walk(fs, v, names[1..], true) == Effect(Fail(ENAMETOOLONG), multiset{v});
  }

  lemma Word(w: string)
    requires w != [] && '/' !in w
    ensures Components(w) == [w]
  {
    assert WordLen(w) == |w|;
    assert w[..|w|] == w && w[|w|..] == [];
  }
}
