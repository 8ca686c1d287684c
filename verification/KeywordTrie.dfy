/**
 The keyword trie of KeywordLookupGenerator.py as a value: insertion, path
 compression and the word-to-token map a trie stands for.

 A child dictionary is a sequence in insertion order; the key of a child is
 always its label. Characters are code units.
 */
module KeywordTrie {
  import opened Wrappers

  type Word = seq<nat>

  datatype Tree = Node(prefix: Word, value: Option<string>, kids: seq<Tree>)

  // ----- What a trie means

  /** The token stored for `w` below `t`. */
  function Find(t: Tree, w: Word): (r: Option<string>)
    decreases t, 1
  {
    if w == [] then t.value else FindKids(t.kids, w)
  }

  /** The first child whose label starts `w` answers; there is no second try. */
  function FindKids(kids: seq<Tree>, w: Word): (r: Option<string>)
    decreases kids, 0
  {
    if kids == [] then None
    else if kids[0].prefix != [] && kids[0].prefix <= w then Find(kids[0], w[|kids[0].prefix|..])
    else FindKids(kids[1..], w)
  }

  /** The token stored for `w` seen from the parent of `t`, the label of `t` included. */
  function FindAt(t: Tree, w: Word): (r: Option<string>)
  {
    if t.prefix <= w then Find(t, w[|t.prefix|..]) else None
  }

  // ----- Shape

  /** Sibling labels are non-empty and start with pairwise distinct characters. */
  predicate Branching(kids: seq<Tree>)
  {
    && (forall i :: 0 <= i < |kids| ==> kids[i].prefix != [])
    && (forall i, j :: 0 <= i < j < |kids| ==> kids[i].prefix[0] != kids[j].prefix[0])
  }

  /** `Branching` at every node. */
  predicate WellFormed(t: Tree)
  {
    Branching(t.kids) && forall i :: 0 <= i < |t.kids| ==> WellFormed(t.kids[i])
  }

  /** No node below the root is a dead end: it stores a token or has a child. */
  predicate Live(t: Tree)
  {
    forall i :: 0 <= i < |t.kids| ==>
      (t.kids[i].value.Some? || t.kids[i].kids != []) && Live(t.kids[i])
  }

  /** No node below the root could be merged with its child. */
  predicate Compressed(t: Tree)
  {
    forall i :: 0 <= i < |t.kids| ==>
      (t.kids[i].value.Some? || |t.kids[i].kids| >= 2) && Compressed(t.kids[i])
  }

  /** Every character on a path of `t` satisfies `p`. */
  predicate AllChars(t: Tree, p: nat -> bool)
  {
    && (forall i :: 0 <= i < |t.prefix| ==> p(t.prefix[i]))
    && (forall i :: 0 <= i < |t.kids| ==> AllChars(t.kids[i], p))
  }

  // ----- Insertion

  /** Position of the child labelled `prefix`, or the number of children. */
  function IndexOf(kids: seq<Tree>, prefix: Word): (i: nat)
    ensures i <= |kids|
    ensures i < |kids| ==> kids[i].prefix == prefix
    ensures forall j :: 0 <= j < i ==> kids[j].prefix != prefix
  {
    if kids == [] || kids[0].prefix == prefix then 0 else 1 + IndexOf(kids[1..], prefix)
  }

  /** Dictionary assignment `keys[kid.prefix] = kid`. */
  function Put(kids: seq<Tree>, kid: Tree): (r: seq<Tree>)
  {
    var i := IndexOf(kids, kid.prefix);
    if i < |kids| then kids[i := kid] else kids + [kid]
  }

  function Insert(t: Tree, key: Word, token: string): (r: Tree)
    decreases |key|
  {
    if key == [] then t.(value := Some(token))
    else
      var i := IndexOf(t.kids, key[..1]);
      var kid := if i < |t.kids| then t.kids[i] else Node(key[..1], None, []);
      t.(kids := Put(t.kids, Insert(kid, key[1..], token)))
  }

  /** The keyword table in file order. */
  type Table = seq<(Word, string)>

  /** The table as a map: a repeated keyword takes its last token. */
  function Meaning(table: Table): (m: map<Word, string>)
  {
    if table == [] then map[]
    else Meaning(table[..|table| - 1])[table[|table| - 1].0 := table[|table| - 1].1]
  }

  function Get(m: map<Word, string>, w: Word): (r: Option<string>)
  {
    if w in m then Some(m[w]) else None
  }

  const ROOT := Node([], None, [])

  /** The trie after inserting every row of the table in order. */
  function Build(table: Table): (t: Tree)
  {
    if table == [] then ROOT
    else Insert(Build(table[..|table| - 1]), table[|table| - 1].0, table[|table| - 1].1)
  }

  // ----- Path compression

  function CoalesceAll(kids: seq<Tree>, done: seq<Tree>): (r: seq<Tree>)
    decreases kids, 0
  {
    if kids == [] then done else CoalesceAll(kids[1..], Put(done, Coalesce(kids[0])))
  }

  lemma CoalesceAllStep(kids: seq<Tree>, i: nat, done: seq<Tree>)
    requires i < |kids|
    ensures CoalesceAll(kids[i..], done) == CoalesceAll(kids[i + 1..], Put(done, Coalesce(kids[i])))
  {
    assert kids[i..][1..] == kids[i + 1..];
  }

  /** What `coalesce` leaves in the node it is called on. */
  function CoalesceSelf(t: Tree): (r: Tree)
    decreases t, 0
  {
    t.(kids := CoalesceAll(t.kids, []))
  }

  /** What `coalesce` returns: the node, or the node fused with its only child. */
  function Coalesce(t: Tree): (r: Tree)
    decreases t, 1
  {
    var u := CoalesceSelf(t);
    if u.value.Some? || |u.kids| != 1 then u
    else Node(u.prefix + u.kids[0].prefix, u.kids[0].value, u.kids[0].kids)
  }

  // ----- Lookup below a branching node

  /** Only the child sharing the first character of `w` can answer. */
  lemma {:induction false} FindKidsPicks(kids: seq<Tree>, w: Word, i: nat)
    requires Branching(kids) && i < |kids| && w != [] && kids[i].prefix[0] == w[0]
    ensures FindKids(kids, w) == FindAt(kids[i], w)
  {
    if i > 0 {
      FindKidsPicks(kids[1..], w, i - 1);
    } else if !(kids[0].prefix <= w) {
      FindKidsMisses(kids[1..], w);
    }
  }

  lemma {:induction false} FindKidsMisses(kids: seq<Tree>, w: Word)
    requires w != [] && forall i :: 0 <= i < |kids| ==> kids[i].prefix != [] && kids[i].prefix[0] != w[0]
    ensures FindKids(kids, w) == None
  {
    if kids != [] {
      FindKidsMisses(kids[1..], w);
    }
  }

  // ----- Insertion is map update

  /** A trie before path compression: every edge is one character. */
  predicate Raw(t: Tree)
  {
    && Branching(t.kids)
    && (forall i :: 0 <= i < |t.kids| ==> |t.kids[i].prefix| == 1)
    && (forall i :: 0 <= i < |t.kids| ==> Raw(t.kids[i]))
  }

  lemma {:induction false} InsertKeepsShape(t: Tree, key: Word, token: string)
    requires Raw(t) && Live(t)
    ensures Raw(Insert(t, key, token)) && Live(Insert(t, key, token))
    ensures Insert(t, key, token).prefix == t.prefix
    ensures Insert(t, key, token).value.Some? || Insert(t, key, token).kids != []
    decreases |key|
  {
    if key != [] {
      var i := IndexOf(t.kids, key[..1]);
      var kid := if i < |t.kids| then t.kids[i] else Node(key[..1], None, []);
      InsertKeepsShape(kid, key[1..], token);
    }
  }

  /** Insertion touches one child, the one for the first character of the key. */
  lemma InsertTouches(t: Tree, key: Word, token: string) returns (i: nat, kid: Tree)
    requires Raw(t) && Live(t) && key != []
    ensures Raw(kid) && Live(kid) && kid.prefix == key[..1]
    ensures i <= |t.kids| && kid == if i < |t.kids| then t.kids[i] else Node(key[..1], None, [])
    ensures i == |t.kids| ==> forall j :: 0 <= j < |t.kids| ==> t.kids[j].prefix[0] != key[0]
    ensures var u := Insert(t, key, token);
            Branching(u.kids) && i < |u.kids| && u.kids[i] == Insert(kid, key[1..], token)
            && u.kids[i].prefix == key[..1]
            && u.kids == if i < |t.kids| then t.kids[i := u.kids[i]] else t.kids + [u.kids[i]]
  {
    i := IndexOf(t.kids, key[..1]);
    kid := if i < |t.kids| then t.kids[i] else Node(key[..1], None, []);
    InsertKeepsShape(t, key, token);
    InsertKeepsShape(kid, key[1..], token);
    forall j | 0 <= j < i ensures t.kids[j].prefix[0] != key[0] {
      assert t.kids[j].prefix == [t.kids[j].prefix[0]] && key[..1] == [key[0]];
    }
  }

  lemma {:induction false} InsertFind(t: Tree, key: Word, token: string, w: Word)
    requires Raw(t) && Live(t)
    ensures Find(Insert(t, key, token), w) == if w == key then Some(token) else Find(t, w)
    decreases |key|
  {
    if key != [] && w != [] {
      var i, kid := InsertTouches(t, key, token);
      var u := Insert(t, key, token);
      if w[0] == key[0] {
        InsertFind(kid, key[1..], token, w[1..]);
        assert w == [w[0]] + w[1..] && key == [key[0]] + key[1..];
        FindKidsPicks(u.kids, w, i);
        if i < |t.kids| {
          FindKidsPicks(t.kids, w, i);
        } else {
          FindKidsMisses(t.kids, w);
          assert Find(kid, w[1..]) == None;
        }
      } else {
        SameElsewhere(t, u, i, w);
      }
    }
  }

  /** Changing the child at `i` does not touch words that start differently. */
  lemma {:induction false} SameElsewhere(t: Tree, u: Tree, i: nat, w: Word)
    requires Branching(t.kids) && Branching(u.kids) && w != []
    requires i < |u.kids| && u.kids[i].prefix[0] != w[0]
    requires if i < |t.kids| then u.kids == t.kids[i := u.kids[i]] && u.kids[i].prefix == t.kids[i].prefix
             else u.kids == t.kids + [u.kids[i]]
    ensures FindKids(u.kids, w) == FindKids(t.kids, w)
  {
    if j :| 0 <= j < |t.kids| && t.kids[j].prefix[0] == w[0] {
      FindKidsPicks(t.kids, w, j);
      FindKidsPicks(u.kids, w, j);
    } else {
      FindKidsMisses(t.kids, w);
      FindKidsMisses(u.kids, w);
    }
  }

  /** The trie built from a table stores exactly the table. */
  lemma {:induction false} BuildMeaning(table: Table, w: Word)
    ensures Raw(Build(table)) && Live(Build(table)) && Build(table).prefix == []
    ensures Find(Build(table), w) == Get(Meaning(table), w)
  {
    if table != [] {
      var n := |table| - 1;
      BuildMeaning(table[..n], w);
      InsertKeepsShape(Build(table[..n]), table[n].0, table[n].1);
      InsertFind(Build(table[..n]), table[n].0, table[n].1, w);
    }
  }

  // ----- Path compression preserves the map

  /** Labels only grow at their end, so first characters survive. */
  lemma CoalescePrefix(t: Tree)
    ensures t.prefix <= Coalesce(t).prefix
  {
  }

  lemma PutAppends(done: seq<Tree>, kid: Tree)
    requires kid.prefix != [] && Branching(done) && forall i :: 0 <= i < |done| ==> done[i].prefix[0] != kid.prefix[0]
    ensures Put(done, kid) == done + [kid] && Branching(done + [kid])
  {
  }

  /** `keys[t.prefix] = t` never overwrites: compressing a branching node maps its children one to one. */
  lemma {:induction false} CoalesceAllMaps(kids: seq<Tree>, done: seq<Tree>)
    requires Branching(done) && Branching(kids)
    requires forall i, j :: 0 <= i < |done| && 0 <= j < |kids| ==> done[i].prefix[0] != kids[j].prefix[0]
    ensures var r := CoalesceAll(kids, done);
            |r| == |done| + |kids| && Branching(r)
            && (forall i :: 0 <= i < |done| ==> r[i] == done[i])
            && (forall i :: 0 <= i < |kids| ==> r[|done| + i] == Coalesce(kids[i]))
  {
    if kids != [] {
      var c := Coalesce(kids[0]);
      CoalescePrefix(kids[0]);
      PutAppends(done, c);
      var rest := kids[1..];
      assert forall j :: 0 <= j < |rest| ==> rest[j] == kids[j + 1];
      CoalesceAllMaps(rest, done + [c]);
      var r := CoalesceAll(kids, done);
      forall i | 0 <= i < |kids| ensures r[|done| + i] == Coalesce(kids[i]) {
        assert i == 0 || r[|done + [c]| + (i - 1)] == Coalesce(rest[i - 1]);
      }
    }
  }

  lemma CoalesceSelfMaps(t: Tree)
    requires WellFormed(t)
    ensures |CoalesceSelf(t).kids| == |t.kids| && Branching(CoalesceSelf(t).kids)
    ensures forall i :: 0 <= i < |t.kids| ==> CoalesceSelf(t).kids[i] == Coalesce(t.kids[i])
  {
    CoalesceAllMaps(t.kids, []);
  }

  /** Compression keeps siblings apart at every node. */
  lemma {:induction false} CoalesceShape(t: Tree)
    requires WellFormed(t)
    ensures WellFormed(CoalesceSelf(t)) && WellFormed(Coalesce(t))
    decreases t
  {
    CoalesceSelfMaps(t);
    forall i | 0 <= i < |t.kids|
      ensures WellFormed(CoalesceSelf(t).kids[i])
    {
      CoalesceShape(t.kids[i]);
    }
  }

  /** No node below the root is left mergeable. */
  lemma {:induction false} CoalesceCompresses(t: Tree)
    requires WellFormed(t) && Live(t)
    ensures Compressed(CoalesceSelf(t)) && Compressed(Coalesce(t))
    ensures t.value.Some? || t.kids != [] ==> Coalesce(t).value.Some? || |Coalesce(t).kids| >= 2
    decreases t
  {
    CoalesceSelfMaps(t);
    forall i | 0 <= i < |t.kids|
      ensures Compressed(Coalesce(t.kids[i]))
      ensures Coalesce(t.kids[i]).value.Some? || |Coalesce(t.kids[i]).kids| >= 2
    {
      CoalesceCompresses(t.kids[i]);
    }
  }

  /** Compression changes no answer, neither in the node itself nor in the one it returns. */
  lemma {:induction false} CoalesceFind(t: Tree, w: Word)
    requires WellFormed(t)
    ensures Find(CoalesceSelf(t), w) == Find(t, w)
    ensures FindAt(Coalesce(t), t.prefix + w) == Find(t, w)
    decreases t
  {
    CoalesceSelfMaps(t);
    var u := CoalesceSelf(t);
    if w != [] {
      if i :| 0 <= i < |t.kids| && t.kids[i].prefix[0] == w[0] {
        var kid := t.kids[i];
        CoalescePrefix(kid);
        FindKidsPicks(t.kids, w, i);
        FindKidsPicks(u.kids, w, i);
        if kid.prefix <= w {
          CoalesceFind(kid, w[|kid.prefix|..]);
          assert kid.prefix + w[|kid.prefix|..] == w;
        }
      } else {
        FindKidsMisses(t.kids, w);
        FindKidsMisses(u.kids, w) by {
          forall i | 0 <= i < |u.kids| ensures u.kids[i].prefix[0] != w[0] { CoalescePrefix(t.kids[i]); }
        }
      }
    }
    assert (t.prefix + w)[|t.prefix|..] == w;
    if u.value.None? && |u.kids| == 1 {
      FuseFind(u, w);
    }
  }

  /** Fusing a tokenless node with its only child keeps its answers. */
  lemma FuseFind(u: Tree, w: Word)
    requires u.value.None? && |u.kids| == 1 && u.kids[0].prefix != []
    ensures FindAt(Node(u.prefix + u.kids[0].prefix, u.kids[0].value, u.kids[0].kids), u.prefix + w) == Find(u, w)
  {
    var kid := u.kids[0];
    var fused := Node(u.prefix + kid.prefix, kid.value, kid.kids);
    assert FindKids(u.kids[1..], w) == None;
    assert w == (u.prefix + w)[|u.prefix|..] && kid.prefix == fused.prefix[|u.prefix|..];
    assert fused.prefix <= u.prefix + w ==> kid.prefix <= w;
    if kid.prefix <= w {
      assert u.prefix + w == u.prefix + kid.prefix + w[|kid.prefix|..];
      assert (u.prefix + w)[|fused.prefix|..] == w[|kid.prefix|..];
      assert Find(fused, w[|kid.prefix|..]) == Find(kid, w[|kid.prefix|..]);
    }
  }

  // ----- Shape and characters carried along

  lemma {:induction false} RawIsWellFormed(t: Tree)
    requires Raw(t)
    ensures WellFormed(t)
    decreases t
  {
    forall i | 0 <= i < |t.kids| ensures WellFormed(t.kids[i]) {
      RawIsWellFormed(t.kids[i]);
    }
  }

  lemma {:induction false} InsertChars(t: Tree, key: Word, token: string, p: nat -> bool)
    requires AllChars(t, p) && forall i :: 0 <= i < |key| ==> p(key[i])
    ensures AllChars(Insert(t, key, token), p)
    decreases |key|
  {
    if key != [] {
      var i := IndexOf(t.kids, key[..1]);
      var kid := if i < |t.kids| then t.kids[i] else Node(key[..1], None, []);
      InsertChars(kid, key[1..], token, p);
    }
  }

  lemma {:induction false} BuildChars(table: Table, p: nat -> bool)
    requires forall i, j :: 0 <= i < |table| && 0 <= j < |table[i].0| ==> p(table[i].0[j])
    ensures AllChars(Build(table), p)
  {
    if table != [] {
      var n := |table| - 1;
      BuildChars(table[..n], p);
      InsertChars(Build(table[..n]), table[n].0, table[n].1, p);
    }
  }

  lemma {:induction false} CoalesceChars(t: Tree, p: nat -> bool)
    requires WellFormed(t) && AllChars(t, p)
    ensures AllChars(CoalesceSelf(t), p) && AllChars(Coalesce(t), p)
    decreases t
  {
    CoalesceSelfMaps(t);
    forall i | 0 <= i < |t.kids| ensures AllChars(CoalesceSelf(t).kids[i], p) {
      CoalesceChars(t.kids[i], p);
    }
  }

  lemma InsertLeavesSomething(table: Table)
    requires table != []
    ensures Build(table).value.Some? || Build(table).kids != []
  {
    var n := |table| - 1;
    BuildMeaning(table[..n], []);
    InsertKeepsShape(Build(table[..n]), table[n].0, table[n].1);
  }

  lemma {:induction false} CompressedIsLive(t: Tree)
    requires Compressed(t)
    ensures Live(t)
    decreases t
  {
    forall i | 0 <= i < |t.kids| ensures Live(t.kids[i]) {
      CompressedIsLive(t.kids[i]);
    }
  }
}
