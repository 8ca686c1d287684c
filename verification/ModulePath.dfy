/**
 Module name resolution of the jsc shell where the path separator is '/':
 splitting, directory extraction and the walk that normalises a path.
 */
module ModulePath {
  import opened Wrappers

  /** "/" and the directory below it, for an absolute path. */
  datatype DirectoryName = DirectoryName(rootName: string, queryName: string)

  const SEPARATOR := '/'

  // ----- Splitting and joining

  /** All entries between separators, empty ones included: always at least one. */
  function Split(s: string): (r: seq<string>)
    ensures r != []
  {
    if s == [] then [[]]
    else if s[0] == SEPARATOR then [[]] + Split(s[1..])
    else [[s[0]] + Split(s[1..])[0]] + Split(s[1..])[1..]
  }

  function NonEmpty(entries: seq<string>): (r: seq<string>)
  {
    if entries == [] then []
    else NonEmpty(entries[..|entries| - 1]) + if entries[|entries| - 1] == [] then [] else [entries[|entries| - 1]]
  }

  function Join(pieces: seq<string>): (r: string)
  {
    if pieces == [] then []
    else if |pieces| == 1 then pieces[0]
    else pieces[0] + [SEPARATOR] + Join(pieces[1..])
  }

  /** What may stand between two separators. */
  predicate Piece(p: string) {
    p != [] && SEPARATOR !in p
  }

  predicate Pieces(ps: seq<string>) {
    forall i :: 0 <= i < |ps| ==> Piece(ps[i])
  }

  lemma {:induction false} SplitConcat(a: string, b: string)
    ensures Split(a + [SEPARATOR] + b) == Split(a) + Split(b)
  {
    var whole := a + [SEPARATOR] + b;
    if a == [] {
      assert whole == [SEPARATOR] + b && whole[1..] == b;
    } else {
      assert whole[1..] == a[1..] + [SEPARATOR] + b;
      SplitConcat(a[1..], b);
    }
  }

  lemma {:induction false} SplitSlashFree(s: string)
    requires SEPARATOR !in s
    ensures Split(s) == [s]
  {
    if s != [] {
      SplitSlashFree(s[1..]);
      assert s == [s[0]] + s[1..];
    }
  }

  lemma {:induction false} SplitEntries(s: string)
    ensures forall i :: 0 <= i < |Split(s)| ==> SEPARATOR !in Split(s)[i]
  {
    if s != [] {
      SplitEntries(s[1..]);
    }
  }

  lemma {:induction false} NonEmptyPieces(entries: seq<string>)
    requires forall i :: 0 <= i < |entries| ==> SEPARATOR !in entries[i]
    ensures Pieces(NonEmpty(entries))
  {
    if entries != [] {
      NonEmptyPieces(entries[..|entries| - 1]);
    }
  }

  lemma {:induction false} NonEmptyIdentity(ps: seq<string>)
    requires Pieces(ps)
    ensures NonEmpty(ps) == ps
  {
    if ps != [] {
      NonEmptyIdentity(ps[..|ps| - 1]);
    }
  }

  /** Splitting undoes joining. */
  lemma {:induction false} SplitJoin(ps: seq<string>)
    requires Pieces(ps)
    ensures Split(Join(ps)) == if ps == [] then [[]] else ps
    ensures NonEmpty(Split(Join(ps))) == ps
  {
    if |ps| == 1 {
      SplitSlashFree(ps[0]);
    } else if |ps| > 1 {
      SplitJoin(ps[1..]);
      SplitConcat(ps[0], Join(ps[1..]));
      SplitSlashFree(ps[0]);
    }
    NonEmptyIdentity(ps);
  }

  // ----- Resolution as a walk

  const UP := ".."
  const HERE := "."

  function Pop(pieces: seq<string>): (r: seq<string>)
  {
    if pieces == [] then [] else pieces[..|pieces| - 1]
  }

  function StepInto(pieces: seq<string>, query: string): (r: seq<string>)
  {
    if query == UP then Pop(pieces)
    else if query != [] && query != HERE then pieces + [query]
    else pieces
  }

  function Walk(pieces: seq<string>, queries: seq<string>): (r: seq<string>)
    decreases |queries|
  {
    if queries == [] then pieces else Walk(StepInto(pieces, queries[0]), queries[1..])
  }

  /** Only an empty first query means the root; the empty name splits into exactly that. */
  predicate StartsWithRoot(name: string) {
    Split(name)[0] == []
  }

  function DirectoryPieces(d: DirectoryName): (ps: seq<string>)
  {
    NonEmpty(Split(d.queryName))
  }

  function ResolvedPieces(d: DirectoryName, name: string): (ps: seq<string>)
  {
    Walk(if StartsWithRoot(name) then [] else DirectoryPieces(d), Split(name))
  }

  function Resolve(d: DirectoryName, name: string): (path: string)
  {
    d.rootName + Join(ResolvedPieces(d, name))
  }

  // ----- The loops of the source

  /** `r` is the index of the first separator at or after `from`. */
  predicate FirstFrom(s: string, from: nat, r: Option<nat>)
    requires from <= |s|
  {
    match r
    case None => SEPARATOR !in s[from..]
    case Some(i) => from <= i < |s| && s[i] == SEPARATOR && SEPARATOR !in s[from..i]
  }

  method Find(s: string, from: nat) returns (r: Option<nat>)
    requires from <= |s|
    ensures FirstFrom(s, from, r)
  {
    var i := from;
    while i < |s|
      invariant from <= i <= |s| && SEPARATOR !in s[from..i]
    {
      if s[i] == SEPARATOR {
        return Some(i);
      }
      i := i + 1;
    }
    return None;
  }

  method ReverseFind(s: string) returns (r: Option<nat>)
    ensures r.None? ==> SEPARATOR !in s
    ensures r.Some? ==> r.value < |s| && s[r.value] == SEPARATOR && SEPARATOR !in s[r.value + 1..]
  {
    var i := |s|;
    while i > 0
      invariant 0 <= i <= |s| && SEPARATOR !in s[i..]
    {
      i := i - 1;
      if s[i] == SEPARATOR {
        return Some(i);
      }
    }
    return None;
  }

  /** Cutting at the next separator takes one entry off what is left. */
  lemma SplitFirst(a: string, b: string)
    requires SEPARATOR !in a
    ensures Split(a + [SEPARATOR] + b) == [a] + Split(b)
  {
    SplitConcat(a, b);
    SplitSlashFree(a);
  }

  function Kept(entries: seq<string>, allowEmptyEntries: bool): (r: seq<string>)
  {
    if allowEmptyEntries then entries else NonEmpty(entries)
  }

  lemma KeptSnoc(entries: seq<string>, entry: string, allowEmptyEntries: bool)
    ensures Kept(entries + [entry], allowEmptyEntries)
            == Kept(entries, allowEmptyEntries) + if allowEmptyEntries || entry != [] then [entry] else []
  {
    assert (entries + [entry])[..|entries|] == entries;
  }

  /** `done` are the entries of `s` before `from`. */
  ghost predicate Progress(s: string, done: seq<string>, from: nat)
  {
    from <= |s| && done + Split(s[from..]) == Split(s)
  }

  lemma ProgressStep(s: string, done: seq<string>, from: nat, end: nat)
    requires Progress(s, done, from) && FirstFrom(s, from, Some(end))
    ensures Progress(s, done + [s[from..end]], end + 1)
  {
    hide Split;
    assert s[from..] == s[from..end] + [SEPARATOR] + s[end + 1..];
    SplitFirst(s[from..end], s[end + 1..]);
    assert done + ([s[from..end]] + Split(s[end + 1..])) == (done + [s[from..end]]) + Split(s[end + 1..]);
  }

  lemma ProgressEnd(s: string, done: seq<string>, from: nat)
    requires Progress(s, done, from) && FirstFrom(s, from, None)
    ensures done + [s[from..]] == Split(s)
  {
    SplitSlashFree(s[from..]);
  }

  /** String::split with or without empty entries. */
  method SplitString(s: string, allowEmptyEntries: bool) returns (result: seq<string>)
    ensures result == Kept(Split(s), allowEmptyEntries)
  {
    result := [];
    ghost var done := [];
    var startPos := 0;
    var endPos := Find(s, 0);
    assert Progress(s, [], 0) by { assert s[0..] == s; }
    hide Split, Progress;
    while endPos.Some?
      invariant startPos <= |s| && FirstFrom(s, startPos, endPos)
      invariant Progress(s, done, startPos)
      invariant result == Kept(done, allowEmptyEntries)
      decreases |s| - startPos, endPos.Some?
    {
      var end := endPos.value;
      var entry := s[startPos..end];
      ProgressStep(s, done, startPos, end);
      KeptSnoc(done, entry, allowEmptyEntries);
      if allowEmptyEntries || startPos != end {
        result := result + [entry];
      }
      done := done + [entry];
      startPos := end + 1;
      endPos := Find(s, startPos);
    }
    ProgressEnd(s, done, startPos);
    KeptSnoc(done, s[startPos..], allowEmptyEntries);
    if allowEmptyEntries || startPos != |s| {
      result := result + [s[startPos..]];
    }
  }

  lemma {:induction false} WalkConcat(pieces: seq<string>, a: seq<string>, b: seq<string>)
    ensures Walk(pieces, a + b) == Walk(Walk(pieces, a), b)
    decreases |a|
  {
    if a == [] {
      assert a + b == b;
    } else {
      assert (a + b)[1..] == a[1..] + b;
      WalkConcat(StepInto(pieces, a[0]), a[1..], b);
    }
  }

  lemma {:induction false} JoinSnoc(ps: seq<string>, p: string)
    ensures Join(ps + [p]) == if ps == [] then p else Join(ps) + [SEPARATOR] + p
  {
    if |ps| > 0 {
      assert (ps + [p])[1..] == ps[1..] + [p];
      JoinSnoc(ps[1..], p);
    }
  }

  /** The loop over the queries. */
  method WalkQueries(start: seq<string>, queries: seq<string>) returns (directoryPieces: seq<string>)
    ensures directoryPieces == Walk(start, queries)
  {
    directoryPieces := start;
    var i := 0;
    while i < |queries|
      invariant i <= |queries| && Walk(directoryPieces, queries[i..]) == Walk(start, queries)
    {
      var query := queries[i];
      assert queries[i..][1..] == queries[i + 1..];
      if query == ".." {
        if directoryPieces != [] {
          directoryPieces := directoryPieces[..|directoryPieces| - 1];
        }
      } else if query != "" && query != "." {
        directoryPieces := directoryPieces + [query];
      }
      i := i + 1;
    }
  }

  /** The loop that builds the path. */
  method JoinPieces(pieces: seq<string>) returns (builder: string)
    ensures builder == Join(pieces)
  {
    builder := "";
    var i := 0;
    while i < |pieces|
      invariant i <= |pieces|
      invariant builder == Join(pieces[..i]) + if 0 < i < |pieces| then [SEPARATOR] else []
    {
      assert pieces[..i + 1] == pieces[..i] + [pieces[i]];
      JoinSnoc(pieces[..i], pieces[i]);
      builder := builder + pieces[i];
      if i + 1 != |pieces| {
        builder := builder + [SEPARATOR];
      }
      i := i + 1;
    }
    assert pieces[..i] == pieces;
  }

  method ResolvePath(d: DirectoryName, moduleName: string) returns (path: string)
    ensures path == Resolve(d, moduleName)
  {
    var directoryPieces := SplitString(d.queryName, false);
    var queries := SplitString(moduleName, true);
    if queries[0] == [] {
      directoryPieces := [];
    }
    directoryPieces := WalkQueries(directoryPieces, queries);
    var builder := JoinPieces(directoryPieces);
    path := d.rootName + builder;
  }

  /** The directory of a file: everything up to the first separator, and what lies between it and the last. */
  method ExtractDirectoryName(path: string) returns (d: Option<DirectoryName>)
    ensures d == DirectoryOf(path)
  {
    var first := Find(path, 0);
    if first.None? {
      assert path[0..] == path;
      SplitSlashFree(path);
      return None;
    }
    var last := ReverseFind(path);
    var p, q := first.value, last.value;
    FirstAndLast(path, p, q);
    var queryName := if p == q then "" else path[p + 1..q];
    d := Some(DirectoryName(path[..p + 1], queryName));
  }

  lemma FirstAndLast(path: string, p: nat, q: nat)
    requires p <= q < |path| && path[p] == path[q] == SEPARATOR
    requires SEPARATOR !in path[..p] && SEPARATOR !in path[q + 1..]
    ensures DirectoryOf(path) == Some(DirectoryName(path[..p + 1], if p == q then "" else path[p + 1..q]))
  {
    assert path == path[..p] + [SEPARATOR] + path[p + 1..] && path[..p + 1] == path[..p] + [SEPARATOR];
    if p == q {
      EntriesOfTwo(path[..p], path[q + 1..]);
    } else {
      var mid := path[p + 1..q];
      assert path[p + 1..] == mid + [SEPARATOR] + path[q + 1..];
      EntriesOfThree(path[..p], mid, path[q + 1..]);
    }
  }

  lemma EntriesOfTwo(root: string, file: string)
    requires SEPARATOR !in root && SEPARATOR !in file
    ensures DirectoryOf(root + [SEPARATOR] + file) == Some(DirectoryName(root + [SEPARATOR], ""))
  {
    hide Split;
    SplitFirst(root, file);
    SplitSlashFree(file);
    assert [root, file][1..1] == [];
  }

  lemma EntriesOfThree(root: string, mid: string, file: string)
    requires SEPARATOR !in root && SEPARATOR !in file
    ensures DirectoryOf(root + [SEPARATOR] + (mid + [SEPARATOR] + file)) == Some(DirectoryName(root + [SEPARATOR], mid))
  {
    hide Split;
    SplitFirst(root, mid + [SEPARATOR] + file);
    SplitConcat(mid, file);
    SplitSlashFree(file);
    JoinSplit(mid);
    var entries := [root] + (Split(mid) + [file]);
    assert entries[1..|entries| - 1] == Split(mid);
  }

  /** Joining undoes splitting, empty entries and all. */
  lemma {:induction false} JoinSplit(s: string)
    ensures Join(Split(s)) == s
  {
    if s != [] {
      JoinSplit(s[1..]);
      var rest := Split(s[1..]);
      if s[0] == SEPARATOR {
        assert Split(s)[1..] == rest;
      } else if |rest| > 1 {
        assert Split(s)[1..] == rest[1..];
      }
    }
  }

  /** The directory by its entries: the first is the root, the last the file. */
  function DirectoryOf(path: string): (d: Option<DirectoryName>)
  {
    var entries := Split(path);
    if |entries| == 1 then None
    else Some(DirectoryName(entries[0] + [SEPARATOR], Join(entries[1..|entries| - 1])))
  }

  // ----- Resolved paths

  /** A directory on this platform: its root is "/". */
  predicate Absolute(d: DirectoryName) {
    d.rootName == [SEPARATOR]
  }

  lemma {:induction false} WalkPieces(pieces: seq<string>, queries: seq<string>)
    requires Pieces(pieces) && forall i :: 0 <= i < |queries| ==> SEPARATOR !in queries[i]
    ensures Pieces(Walk(pieces, queries))
    decreases |queries|
  {
    if queries != [] {
      WalkPieces(StepInto(pieces, queries[0]), queries[1..]);
    }
  }

  lemma ResolvedArePieces(d: DirectoryName, name: string)
    ensures Pieces(DirectoryPieces(d)) && Pieces(ResolvedPieces(d, name))
  {
    SplitEntries(d.queryName);
    NonEmptyPieces(Split(d.queryName));
    SplitEntries(name);
    WalkPieces(if StartsWithRoot(name) then [] else DirectoryPieces(d), Split(name));
  }

  /** The entries of an absolute path. */
  lemma AbsoluteEntries(ps: seq<string>)
    requires Pieces(ps)
    ensures Split([SEPARATOR] + Join(ps)) == [[]] + if ps == [] then [[]] else ps
  {
    assert [SEPARATOR] + Join(ps) == [] + [SEPARATOR] + Join(ps);
    SplitJoin(ps);
    hide Split, Join;
    SplitFirst([], Join(ps));
  }

  /** The directory of an absolute path drops its last piece. */
  lemma AbsoluteDirectory(ps: seq<string>)
    requires Pieces(ps)
    ensures DirectoryOf([SEPARATOR] + Join(ps)) == Some(DirectoryName([SEPARATOR], Join(Pop(ps))))
    ensures DirectoryPieces(DirectoryName([SEPARATOR], Join(Pop(ps)))) == Pop(ps)
  {
    AbsoluteEntries(ps);
    SplitJoin(Pop(ps));
    hide Split, Join;
    var entries := Split([SEPARATOR] + Join(ps));
    assert entries[0] + [SEPARATOR] == [SEPARATOR];
    assert entries[1..|entries| - 1] == Pop(ps);
  }

  /** Different pieces, different paths. */
  lemma JoinInjective(a: seq<string>, b: seq<string>)
    requires Pieces(a) && Pieces(b) && [SEPARATOR] + Join(a) == [SEPARATOR] + Join(b)
    ensures a == b
  {
    assert Join(a) == ([SEPARATOR] + Join(a))[1..] && Join(b) == ([SEPARATOR] + Join(b))[1..];
    SplitJoin(a);
    SplitJoin(b);
  }

  // ----- Resolution composes

  /** Resolving `y` from the directory of the resolved `x`, against resolving the two names as one. */
  predicate Composes(d: DirectoryName, x: string, y: string)
  {
    var inner := DirectoryOf(Resolve(d, x));
    inner.Some? && Resolve(inner.value, y) == Resolve(d, x + "/../" + y)
  }

  lemma SplitUp(x: string, y: string)
    ensures Split(x + "/../" + y) == Split(x) + [UP] + Split(y)
  {
    assert x + "/../" + y == x + [SEPARATOR] + (UP + [SEPARATOR] + y);
    SplitConcat(x, UP + [SEPARATOR] + y);
    SplitConcat(UP, y);
    SplitSlashFree(UP);
  }

  /** What the two sides resolve to, as pieces. */
  lemma BothSides(d: DirectoryName, x: string, y: string)
    requires Absolute(d)
    ensures DirectoryOf(Resolve(d, x)).Some?
    ensures var inner := DirectoryOf(Resolve(d, x)).value;
            var pieces := Pop(ResolvedPieces(d, x));
            Absolute(inner)
            && ResolvedPieces(inner, y) == Walk(if StartsWithRoot(y) then [] else pieces, Split(y))
            && ResolvedPieces(d, x + "/../" + y) == Walk(pieces, Split(y))
  {
    ResolvedArePieces(d, x);
    AbsoluteDirectory(ResolvedPieces(d, x));
    SplitUp(x, y);
    var start := if StartsWithRoot(x) then [] else DirectoryPieces(d);
    WalkConcat(start, Split(x) + [UP], Split(y));
    WalkConcat(start, Split(x), [UP]);
    assert Walk(Walk(start, Split(x)), [UP]) == Pop(Walk(start, Split(x)));
  }

  lemma RelativeComposes(d: DirectoryName, x: string, y: string)
    requires Absolute(d) && !StartsWithRoot(y)
    ensures Composes(d, x, y)
  {
    BothSides(d, x, y);
  }

  /** A walk cannot bring two starting points closer than one piece a query. */
  lemma {:induction false} WalkApart(a: seq<string>, b: seq<string>, queries: seq<string>)
    requires |a| >= |b|
    ensures |Walk(a, queries)| >= |Walk(b, queries)| + |a| - |b| - |queries|
    decreases |queries|
  {
    if queries != [] {
      var a', b' := StepInto(a, queries[0]), StepInto(b, queries[0]);
      if |a'| >= |b'| {
        WalkApart(a', b', queries[1..]);
      }
    }
  }

  function Repeat(p: string, n: nat): (ps: seq<string>)
    ensures |ps| == n && forall i :: 0 <= i < n ==> ps[i] == p
  {
    if n == 0 then [] else [p] + Repeat(p, n - 1)
  }

  /** A rooted name fails to compose from any directory deep enough. */
  lemma RootedFails(y: string) returns (d: DirectoryName)
    requires StartsWithRoot(y)
    ensures Absolute(d) && !Composes(d, "x", y)
  {
    var deep := Repeat("a", |Split(y)| + 1);
    d := DirectoryName([SEPARATOR], Join(deep));
    SplitJoin(deep);
    SplitSlashFree("x");
    BothSides(d, "x", y);
    assert Walk(deep, ["x"]) == deep + ["x"];
    assert Pop(deep + ["x"]) == deep;
    WalkApart(deep, [], Split(y));
    ResolvedArePieces(d, "x" + "/../" + y);
    var inner := DirectoryOf(Resolve(d, "x")).value;
    ResolvedArePieces(inner, y);
    if Composes(d, "x", y) {
      JoinInjective(ResolvedPieces(inner, y), ResolvedPieces(d, "x" + "/../" + y));
    }
  }

  /** Resolution composes from every directory and every name exactly for the names that are not rooted. */
  lemma ComposesIffRelative(y: string)
    ensures (forall d: DirectoryName, x: string :: Absolute(d) ==> Composes(d, x, y)) <==> !StartsWithRoot(y)
    ensures StartsWithRoot(y) <==> y == "" || y[0] == SEPARATOR
  {
    if StartsWithRoot(y) {
      var d := RootedFails(y);
    } else {
      forall d: DirectoryName, x: string | Absolute(d) ensures Composes(d, x, y) {
        RelativeComposes(d, x, y);
      }
    }
  }

  // ----- Resolution is idempotent

  /** No entry the walk would interpret. */
  predicate Plain(ps: seq<string>) {
    UP !in ps && HERE !in ps
  }

  lemma {:induction false} WalkPlain(pieces: seq<string>, queries: seq<string>)
    requires Plain(queries) && Pieces(queries)
    ensures Walk(pieces, queries) == pieces + queries
    decreases |queries|
  {
    if queries != [] {
      WalkPlain(pieces + [queries[0]], queries[1..]);
      assert pieces + queries == (pieces + [queries[0]]) + queries[1..];
    }
  }

  lemma {:induction false} WalkShrinks(pieces: seq<string>, queries: seq<string>)
    ensures |Walk(pieces, queries)| <= |pieces| + |queries|
    ensures !Plain(queries) ==> |Walk(pieces, queries)| < |pieces| + |queries|
    decreases |queries|
  {
    if queries != [] {
      WalkShrinks(StepInto(pieces, queries[0]), queries[1..]);
      assert queries == [queries[0]] + queries[1..];
    }
  }

  lemma {:induction false} WalkStaysPlain(pieces: seq<string>, queries: seq<string>)
    requires Plain(pieces)
    ensures Plain(Walk(pieces, queries))
    decreases |queries|
  {
    if queries != [] {
      WalkStaysPlain(StepInto(pieces, queries[0]), queries[1..]);
    }
  }

  /** Resolving a resolved path again walks its pieces from the root. */
  lemma ResolvedAgain(d: DirectoryName, e: DirectoryName, x: string)
    requires Absolute(d)
    ensures ResolvedPieces(e, Resolve(d, x)) == Walk([], ResolvedPieces(d, x))
  {
    var ps := ResolvedPieces(d, x);
    ResolvedArePieces(d, x);
    AbsoluteEntries(ps);
    if ps == [] {
      assert Walk([], [[], []]) == Walk([], [[]]) == [];
    } else {
      assert ([[]] + ps)[1..] == ps;
    }
  }

  /** A resolved path resolves to itself, for every name, exactly when the directory holds no "." or "..". */
  lemma IdempotentIffPlain(d: DirectoryName, e: DirectoryName)
    requires Absolute(d) && Absolute(e)
    ensures (forall x: string :: Resolve(e, Resolve(d, x)) == Resolve(d, x)) <==> Plain(DirectoryPieces(d))
  {
    var dir := DirectoryPieces(d);
    if Plain(dir) {
      forall x: string ensures Resolve(e, Resolve(d, x)) == Resolve(d, x) {
        ResolvedAgain(d, e, x);
        ResolvedArePieces(d, x);
        WalkStaysPlain(if StartsWithRoot(x) then [] else dir, Split(x));
        WalkPlain([], ResolvedPieces(d, x));
        assert [] + ResolvedPieces(d, x) == ResolvedPieces(d, x);
      }
    } else {
      SplitSlashFree(HERE);
      assert Walk(dir, [HERE]) == dir;
      ResolvedAgain(d, e, HERE);
      WalkShrinks([], dir);
      ResolvedArePieces(d, HERE);
      ResolvedArePieces(e, Resolve(d, HERE));
      if Resolve(e, Resolve(d, HERE)) == Resolve(d, HERE) {
        JoinInjective(ResolvedPieces(e, Resolve(d, HERE)), ResolvedPieces(d, HERE));
      }
    }
  }
}
