/** dir_namev and open_namev as they run: a copy of the path is scanned and cut into
    NUL-terminated names in place, with references taken and dropped on the way. */
module NamevImpl {
  import opened Basics
  import opened Namev

  const NUL: char := '\0'

  // ---------------------------------------------------------------------
  // Scanning, in terms of components
  // ---------------------------------------------------------------------

  lemma {:induction false} SkipSame(s: string, k: nat)
    requires k <= |s| && forall x :: 0 <= x < k ==> s[x] == '/'
    ensures Components(s) == Components(s[k..])
  {
    if k > 0 {
      assert s[1..][k - 1..] == s[k..];
      SkipSame(s[1..], k - 1);
    }
  }

  lemma {:induction false} TrimSame(s: string, e: nat)
    requires e <= |s| && forall x :: e <= x < |s| ==> s[x] == '/'
    ensures Components(s) == Components(s[..e])
    decreases |s| - e
  {
    if e == |s| {
      assert s[..e] == s;
    } else {
      TrimSame(s, e + 1);
      assert s[..e + 1] == s[..e] + "/";
      SlashesDoNotMatter(s[..e], "");
    }
  }

  lemma {:induction false} WordLenIs(s: string, n: nat)
    requires n <= |s| && '/' !in s[..n] && (n < |s| ==> s[n] == '/')
    ensures WordLen(s) == n
  {
    if n > 0 {
      assert s[0] in s[..n];
      assert forall c <- s[1..][..n - 1] :: c in s[..n];
      WordLenIs(s[1..], n - 1);
    }
  }

  /** The components, as the scanner's proofs handle them. */
  function Names(s: string): seq<string> {
    Components(s)
  }

  lemma WordFirst(s: string, n: nat)
    requires 0 < n <= |s| && '/' !in s[..n] && (n < |s| ==> s[n] == '/')
    ensures Names(s) == [s[..n]] + Names(s[n..])
  {
    WordLenIs(s, n);
    assert s[0] in s[..n];
  }

  lemma SlashesThenName(s: string, k: nat)
    requires k < |s| && (forall x :: 0 <= x < k ==> s[x] == '/') && s[k] != '/'
    ensures Names(s) == Names(s[k..]) && Names(s) != []
  {
    SkipSame(s, k);
    AllSlashes(s);
    assert s[k] in s;
  }

  /** A name at the front of `s`, slashes, and then more. */
  lemma WordThenRest(s: string, n: nat, k: nat)
    requires 0 < n <= k < |s| && '/' !in s[..n] && s[n] == '/' && (forall x :: n <= x < k ==> s[x] == '/')
             && s[k] != '/'
    ensures Names(s) == [s[..n]] + Names(s[k..]) && Names(s[k..]) != []
  {
    hide Names;
    WordFirst(s, n);
    assert s[n..][k - n..] == s[k..];
    SlashesThenName(s[n..], k - n);
  }

  /** Where dir_namev's basename lies in the path: the last component there. */
  predicate LastAt(path: string, off: nat, len: nat) {
    && off + len <= |path| && len > 0 && '/' !in path[off..off + len]
    && (off > 0 ==> path[off - 1] == '/') && forall x :: off + len <= x < |path| ==> path[x] == '/'
  }

  /** From `i` on the buffer still holds the path, cut off at `e`. */
  ghost predicate Holds(buf: array<char>, path: string, i: nat, e: nat)
    reads buf
  {
    && i <= e <= |path| && e < buf.Length && buf[e] == NUL && NUL !in path
    && forall j :: i <= j < e ==> buf[j] == path[j]
  }

  /** ... and a name starts at `i`. */
  ghost predicate At(buf: array<char>, path: string, i: nat, e: nat)
    reads buf
  {
    Holds(buf, path, i, e) && i < e && path[i] != '/' && path[e - 1] != '/' && (i > 0 ==> path[i - 1] == '/')
  }

  /** The name that starts at `i` ends at `z`. */
  predicate NameTo(path: string, i: nat, z: nat, e: nat) {
    i < z <= e <= |path| && (forall x :: i <= x < z ==> path[x] != '/') && (z < e ==> path[z] == '/')
  }

  /** Slashes from `z` up to the name that starts at `k`. */
  predicate GapTo(path: string, z: nat, k: nat, e: nat) {
    z < k < e <= |path| && (forall x :: z <= x < k ==> path[x] == '/') && path[k] != '/'
  }

  /** strnlen of the string that starts at `i`; `z` is where it ends. */
  method StrnLen(buf: array<char>, i: nat, cap: nat, ghost z: nat) returns (n: nat)
    requires i <= z < buf.Length && buf[z] == NUL && forall j :: i <= j < z ==> buf[j] != NUL
    ensures n == if z - i < cap then z - i else cap
  {
    n := 0;
    while n < cap && buf[i + n] != NUL
      invariant n <= cap && i + n <= z
    {
      n := n + 1;
    }
  }

  /** The end of the name that starts at `i`. */
  method NameEnd(buf: array<char>, ghost path: string, i: nat, ghost e: nat) returns (j: nat)
    requires At(buf, path, i, e)
    ensures NameTo(path, i, j, e) && j < buf.Length && (buf[j] == NUL <==> j == e)
  {
    j := i;
    while buf[j] != '/' && buf[j] != NUL
      invariant i <= j <= e && forall x :: i <= x < j ==> path[x] != '/'
      decreases e - j
    {
      j := j + 1;
    }
  }

  /** Turns the slashes from `i` on into NULs. */
  method CutSlashes(buf: array<char>, ghost path: string, i: nat, ghost e: nat) returns (j: nat)
    requires Holds(buf, path, i, e) && i < e && path[i] == '/' && path[e - 1] != '/'
    modifies buf
    ensures i < j < e && path[j] != '/' && (forall x :: i <= x < j ==> path[x] == '/')
    ensures Holds(buf, path, j, e) && buf[i] == NUL
    ensures forall x :: 0 <= x < i ==> buf[x] == old(buf[x])
  {
    j := i;
    while buf[j] == '/'
      invariant i <= j < e && (forall x :: i <= x < j ==> path[x] == '/')
      invariant Holds(buf, path, j, e) && (i < j ==> buf[i] == NUL)
      invariant forall x :: 0 <= x < i ==> buf[x] == old(buf[x])
      decreases e - j
    {
      buf[j] := NUL;
      j := j + 1;
    }
  }

  /** Cuts the name off the rest, and measures it. */
  method CutName(buf: array<char>, ghost path: string, off: nat, z: nat, ghost e: nat, cap: nat)
    returns (len: nat, next: nat)
    requires At(buf, path, off, e) && NameTo(path, off, z, e) && z < e
    modifies buf
    ensures At(buf, path, next, e) && GapTo(path, z, next, e) && off < next
    ensures len == if z - off < cap then z - off else cap
    ensures off + len <= buf.Length && (len == z - off ==> buf[off..off + len] == path[off..z])
  {
    next := CutSlashes(buf, path, z, e);
    len := StrnLen(buf, off, cap, z);
    assert len == z - off ==> buf[off..off + len] == path[off..z];
  }

  /** Turns the trailing slashes into NULs. */
  method TrimSlashes(buf: array<char>, ghost path: string, n: nat, ghost k: nat) returns (ghost e: nat)
    requires Holds(buf, path, 0, n) && n == |path| && k < n && path[k] != '/'
    modifies buf
    ensures k < e <= n <= |path| && Holds(buf, path, 0, e) && path[e - 1] != '/' && forall x :: e <= x < n ==>
            path[x] == '/'
  {
    var end := n - 1;
    while buf[end] == '/'
      invariant k <= end < n && Holds(buf, path, 0, end + 1) && forall x :: end + 1 <= x < n ==> path[x] == '/'
      decreases end
    {
      buf[end] := NUL;
      end := end - 1;
    }
    e := end + 1;
  }

  /** The first character that is not a slash, if any. */
  method FirstName(buf: array<char>, ghost path: string, n: nat) returns (k: nat)
    requires Holds(buf, path, 0, n) && n == |path|
    ensures k <= n && (forall x :: 0 <= x < k ==> path[x] == '/') && (k < n ==> path[k] != '/')
  {
    k := 0;
    while k < n && buf[k] == '/'
      invariant k <= n && forall x :: 0 <= x < k ==> path[x] == '/'
    {
      k := k + 1;
    }
  }

  class Vfs {
    const fs: Fs
    /** Every reference held on a vnode, by anyone. */
    var refs: multiset<nat>

    constructor (fs: Fs)
      ensures this.fs == fs && refs == multiset{}
    {
      this.fs := fs;
      refs := multiset{};
    }

    method Vref(v: nat)
      modifies this
      ensures refs == old(refs) + multiset{v}
    {
      refs := refs + multiset{v};
    }

    method Vput(v: nat)
      requires v in refs
      modifies this
      ensures refs == old(refs) - multiset{v}
    {
      refs := refs - multiset{v};
    }

    /** lookup */
    method Lookup(dir: nat, name: string) returns (r: Look)
      modifies this
      ensures r == Namev.Lookup(fs, dir, name)
      ensures refs == old(refs) + if r.Found? then multiset{r.vn} else multiset{}
    {
      if !fs.isDir(dir) { return Err(ENOTDIR); }
      r := fs.find(dir, name);
      if r.Found? { refs := refs + multiset{r.vn}; }
    }

    /** One round of dir_namev's loop: the name that starts at `off` and ends at `z`
        is cut out and looked up in `dir`. */
    method Advance(buf: array<char>, ghost path: string, off: nat, z: nat, ghost e: nat, dir: nat,
                   needToDecrease: bool, ghost r0: multiset<nat>)
      returns (err: Option<Errno>, v: nat, next: nat)
      requires At(buf, path, off, e) && NameTo(path, off, z, e) && z < e
      requires refs == r0 + Own(dir, needToDecrease)
      modifies this, buf
      ensures var w := From(fs, dir, path, off, e, needToDecrease);
              if err.Some? then w.res == Fail(err.value) && refs == r0 + w.net
              else w == From(fs, v, path, next, e, true) && refs == r0 + Own(v, true)
      ensures err.None? ==> off < next && At(buf, path, next, e)
    {
      hide From, At, NameTo, GapTo;
      v := dir;
      var len;
      len, next := CutName(buf, path, off, z, e, fs.nameLen + 1);
      Bounds(path, off, z, next, e);
      Goes(fs, dir, path, off, z, next, e, needToDecrease);
      if len > fs.nameLen { return Some(ENAMETOOLONG), v, next; }
      err, v := Enter(dir, buf[off..off + len], needToDecrease, r0);
    }

    /** lookup, dropping the directory it was done in if this call owned it */
    method Enter(dir: nat, name: string, needToDecrease: bool, ghost r0: multiset<nat>)
      returns (err: Option<Errno>, v: nat)
      requires refs == r0 + Own(dir, needToDecrease)
      modifies this
      ensures match Namev.Lookup(fs, dir, name)
              case Err(x) => err == Some(x) && refs == r0
              case Found(u) => err == None && v == u && refs == r0 + Own(v, true)
    {
      var found := Lookup(dir, name);
      if needToDecrease { Vput(dir); }
      if found.Err? { return Some(found.e), dir; }
      return None, found.vn;
    }

    /** The loop of dir_namev over the names in `path[first..e]`, and what follows. */
    method WalkNames(buf: array<char>, ghost path: string, first: nat, ghost e: nat, base: nat)
      returns (err: Option<Errno>, dir: nat, off: nat, len: nat)
      requires At(buf, path, first, e)
      modifies this, buf
      ensures var w := From(fs, base, path, first, e, false);
              refs == old(refs) + w.net && Reports(w.res, path, e, err, dir, off, len)
    {
      hide From, At, NameTo, Reports;
      ghost var w := From(fs, base, path, first, e, false);
      var needToDecrease := false;
      dir, off, len := base, first, 0;
      var next: nat := NameEnd(buf, path, off, e);
      while buf[next] != NUL
        invariant At(buf, path, off, e) && NameTo(path, off, next, e) && next < buf.Length
                  && (buf[next] == NUL <==> next == e)
        invariant w == From(fs, dir, path, off, e, needToDecrease)
        invariant refs == old(refs) + Own(dir, needToDecrease)
        decreases e - off
      {
        NameBounds(path, off, next, e);
        err, dir, next := Advance(buf, path, off, next, e, dir, needToDecrease, old(refs));
        if err.Some? {
          FailReport(path, e, err.value, dir, off, len);
          return;
        }
        off, needToDecrease := next, true;
        next := NameEnd(buf, path, off, e);
        NameBounds(path, off, next, e);
      }
      err, len := LastName(buf, path, off, e, dir, needToDecrease, old(refs));
    }

    /** dir_namev after its loop */
    method LastName(buf: array<char>, ghost path: string, off: nat, ghost e: nat, dir: nat, needToDecrease: bool,
                    ghost r0: multiset<nat>)
      returns (err: Option<Errno>, len: nat)
      requires At(buf, path, off, e) && NameTo(path, off, e, e) && refs == r0 + Own(dir, needToDecrease)
      modifies this
      ensures var w := From(fs, dir, path, off, e, needToDecrease);
              refs == r0 + w.net && Reports(w.res, path, e, err, dir, off, len)
    {
      hide From, Reports, At;
      Ends(fs, dir, path, off, e, needToDecrease);
      LastEnds(buf, path, off, e);
      len := StrnLen(buf, off, fs.nameLen + 1, e);
      if !needToDecrease { Vref(dir); }
      if len > fs.nameLen {
        Vput(dir);
        FailReport(path, e, ENAMETOOLONG, dir, off, len);
        return Some(ENAMETOOLONG), len;
      }
      NameReport(buf, path, off, e, dir);
      err := None;
    }

    /** dir_namev; `base` is absent when the working directory `cwd` is meant. */
    method DirNamev(path: string, base: Option<nat>, cwd: nat)
      returns (err: Option<Errno>, dir: nat, off: Option<nat>, len: nat)
      requires NUL !in path
      modifies this
      ensures var w := Namev.DirNamev(fs, if base.Some? then base.value else cwd, path);
              refs == old(refs) + w.net && DirReports(w.res, fs.root, path, err, dir, off, len)
    {
      hide Holds, At, From, Walk, Reports;
      dir, off, len := 0, None, 0;
      if |path| > fs.maxPath || |path| == 0 { return Some(EINVAL), dir, off, len; }
      var buf := CopyOf(path, fs.maxPath);
      var start := if path[0] == '/' then fs.root else if base.Some? then base.value else cwd;
      var k := FirstName(buf, path, |path|);
      if k == |path| {
        NoNames(path);
        Vref(fs.root);
        return None, fs.root, None, 0;
      }
      ghost var e := TrimSlashes(buf, path, |path|, k);
      StartsAt(buf, path, k, e);
      NamesBetween(fs, start, path, k, e);
      var o;
      err, dir, o, len := WalkNames(buf, path, k, e, start);
      off := Some(o);
      Reported(From(fs, start, path, k, e, false).res, fs.root, path, e, err, dir, o, len);
    }

    /** A directory's own create operation */
    method Make(dir: nat, name: string) returns (r: Look)
      modifies this
      ensures r == fs.make(dir, name)
      ensures refs == old(refs) + if r.Found? then multiset{r.vn} else multiset{}
    {
      r := fs.make(dir, name);
      if r.Found? { refs := refs + multiset{r.vn}; }
    }

    /** open_namev; `creat` is O_CREAT */
    method OpenNamev(path: string, creat: bool, base: Option<nat>, cwd: nat) returns (r: Look)
      requires NUL !in path
      modifies this
      ensures var w := Open(fs, if base.Some? then base.value else cwd, path, creat);
              r == w.res && refs == old(refs) + w.net
    {
      hide Namev.DirNamev, Namev.OpenIn, DirReports;
      ghost var w := Namev.DirNamev(fs, if base.Some? then base.value else cwd, path);
      var err, parent, off, len := DirNamev(path, base, cwd);
      if err.Some? {
        FailedKeeps(w.res, fs.root, path, err, parent, off, len);
        return Err(err.value);
      }
      Succeeded(w, fs, if base.Some? then base.value else cwd, path, err, parent, off, len);
      if off.None? {
        Vref(fs.root);
        Vput(parent);
        return Found(fs.root);
      }
      r := OpenIn(parent, path[off.value..off.value + len], creat, old(refs));
    }

    /** open_namev once the directory is known: its reference is dropped again. */
    method OpenIn(parent: nat, name: string, creat: bool, ghost r0: multiset<nat>) returns (r: Look)
      requires refs == r0 + multiset{parent}
      modifies this
      ensures var w := Namev.OpenIn(fs, parent, name, creat); r == w.res && refs == r0 + w.net
    {
      r := Lookup(parent, name);
      if r == Err(ENOENT) && creat { r := Make(parent, name); }
      Vput(parent);
    }
  }

  /** strncpy of the path into a buffer of MAXPATHLEN + 1 characters */
  method CopyOf(path: string, maxPath: nat) returns (buf: array<char>)
    requires |path| <= maxPath && NUL !in path
    ensures fresh(buf) && Holds(buf, path, 0, |path|)
  {
    buf := new char[maxPath + 1](_ => NUL);
    var i := 0;
    while i < |path|
      invariant 0 <= i <= |path| && forall j :: 0 <= j < i ==> buf[j] == path[j]
    {
      buf[i] := path[i];
      i := i + 1;
    }
    buf[|path|] := NUL;
  }

  /** How dir_namev hands back its result: the name is the last component where it
      stands in the path. */
  predicate DirReports(res: Parsed, root: nat, path: string, err: Option<Errno>, dir: nat, off: Option<nat>, len: nat) {
    match res
    case Fail(e) => err == Some(e)
    case Root => err == None && dir == root && off == None && len == 0
    case Parent(d, name) =>
      && err == None && dir == d && off.Some? && LastAt(path, off.value, len)
      && path[off.value..off.value + len] == name
  }

  lemma Reported(res: Parsed, root: nat, path: string, e: nat, err: Option<Errno>, dir: nat, off: nat, len: nat)
    requires Reports(res, path, e, err, dir, off, len) && e <= |path| && forall x :: e <= x < |path| ==> path[x] == '/'
    ensures DirReports(res, root, path, err, dir, Some(off), len)
  {
  }

  lemma StartsAt(buf: array<char>, path: string, k: nat, e: nat)
    requires Holds(buf, path, 0, e) && k < e && path[k] != '/' && path[e - 1] != '/' && forall x :: 0 <= x < k ==>
             path[x] == '/'
    ensures At(buf, path, k, e)
  {
  }

  /** The reference a walk owns on its current directory. */
  function Own(v: nat, owned: bool): multiset<nat> {
    if owned then multiset{v} else multiset{}
  }

  /** dir_namev's loop entered at the name that starts at `i`. */
  function From(fs: Fs, v: nat, path: string, i: nat, e: nat, owned: bool): Effect {
    if i <= e <= |path| && Names(path[i..e]) != [] then Walk(fs, v, Names(path[i..e]), owned)
    else Effect(Root, multiset{})
  }

  /** How a walk's result is handed back: the name is the end of the trimmed path. */
  predicate Reports(res: Parsed, path: string, e: nat, err: Option<Errno>, dir: nat, off: nat, len: nat) {
    match res
    case Fail(x) => err == Some(x)
    case Root => false
    case Parent(d, name) =>
      && err == None && dir == d && len > 0 && off + len == e && e <= |path| && path[off..e] == name
      && '/' !in path[off..e] && (off > 0 ==> path[off - 1] == '/')
  }

  /** One more name, ending at `z`, with the following one at `k`. */
  lemma Goes(fs: Fs, v: nat, path: string, i: nat, z: nat, k: nat, e: nat, owned: bool)
    requires NameTo(path, i, z, e) && GapTo(path, z, k, e) && i <= z <= e <= |path|
    ensures From(fs, v, path, i, e, owned) ==
            if z - i > fs.nameLen then Effect(Fail(ENAMETOOLONG), if owned then multiset{v} else multiset{})
            else match Namev.Lookup(fs, v, path[i..z])
                 case Err(x) => Effect(Fail(x), multiset{})
                 case Found(u) => From(fs, u, path, k, e, true)
  {
    hide Names;
    var s := path[i..e];
    assert s[..z - i] == path[i..z] && s[k - i..] == path[k..e];
    WordThenRest(s, z - i, k - i);
    var names := Names(s);
    assert names[1..] == Names(path[k..e]);
  }

  /** The last name. */
  lemma Ends(fs: Fs, v: nat, path: string, i: nat, e: nat, owned: bool)
    requires NameTo(path, i, e, e) && i <= e <= |path|
    ensures From(fs, v, path, i, e, owned) ==
            if e - i > fs.nameLen then Effect(Fail(ENAMETOOLONG), multiset{})
            else Effect(Parent(v, path[i..e]), multiset{v})
    ensures '/' !in path[i..e]
  {
    Word(path[i..e]);
  }

  lemma Bounds(path: string, i: nat, z: nat, k: nat, e: nat)
    requires NameTo(path, i, z, e) && GapTo(path, z, k, e)
    ensures i < z < k < e <= |path|
  {
  }

  lemma NameBounds(path: string, i: nat, z: nat, e: nat)
    requires NameTo(path, i, z, e)
    ensures i < z <= e <= |path|
  {
  }

  lemma FailReport(path: string, e: nat, x: Errno, dir: nat, off: nat, len: nat)
    ensures Reports(Fail(x), path, e, Some(x), dir, off, len)
  {
  }

  lemma FailedKeeps(res: Parsed, root: nat, path: string, err: Option<Errno>, dir: nat, off: Option<nat>, len: nat)
    requires DirReports(res, root, path, err, dir, off, len) && err.Some?
    ensures res == Fail(err.value)
  {
  }

  /** A successful dir_namev holds one reference, on the directory it returns. */
  lemma Succeeded(w: Effect, fs: Fs, base: nat, path: string, err: Option<Errno>, dir: nat, off: Option<nat>, len: nat)
    requires w == DirNamev(fs, base, path) && DirReports(w.res, fs.root, path, err, dir, off, len) && err.None?
    ensures w.net == multiset{dir}
    ensures if off.None? then w.res == Root && dir == fs.root
            else off.value + len <= |path| && w.res == Parent(dir, path[off.value..off.value + len])
  {
    DirNamevSucceeds(fs, base, path);
  }

  lemma DirNamevSucceeds(fs: Fs, base: nat, path: string)
    ensures var w := DirNamev(fs, base, path); !w.res.Fail? ==> w.net == Expected(w.res, fs.root)
  {
    if Components(path) != [] { WalkSucceeds(fs, Start(fs, base, path), Components(path), false); }
  }

  lemma {:induction false} WalkSucceeds(fs: Fs, v: nat, names: seq<string>, owned: bool)
    requires names != []
    ensures var w := Walk(fs, v, names, owned); !w.res.Fail? ==> w.res.Parent? && w.net == multiset{w.res.dir}
    decreases |names|
  {
    if |names| > 1 {
      var r := Namev.Lookup(fs, v, names[0]);
      if r.Found? { WalkSucceeds(fs, r.vn, names[1..], true); }
    }
  }

  lemma LastEnds(buf: array<char>, path: string, i: nat, e: nat)
    requires At(buf, path, i, e)
    ensures i < e < buf.Length && buf[e] == NUL && forall j :: i <= j < e ==> buf[j] != NUL
  {
  }

  lemma NameReport(buf: array<char>, path: string, i: nat, e: nat, dir: nat)
    requires At(buf, path, i, e) && NameTo(path, i, e, e)
    ensures i < e <= |path| && Reports(Parent(dir, path[i..e]), path, e, None, dir, i, e - i)
  {
  }

  lemma NoNames(path: string)
    requires forall x :: 0 <= x < |path| ==> path[x] == '/'
    ensures Components(path) == []
  {
    AllSlashes(path);
  }

  /** Leading and trailing slashes aside, the path is what lies between. */
  lemma NamesBetween(fs: Fs, v: nat, path: string, k: nat, e: nat)
    requires k < e <= |path| && (forall x :: 0 <= x < k ==> path[x] == '/')
             && (forall x :: e <= x < |path| ==> path[x] == '/') && path[k] != '/'
    ensures Components(path) != [] && From(fs, v, path, k, e, false) == Walk(fs, v, Components(path), false)
  {
    TrimSame(path, e);
    SlashesThenName(path[..e], k);
    assert path[..e][k..] == path[k..e];
  }
}
