/**
 fillOut of KeywordLookupGenerator.py: subtree weights, the descending order
 of siblings, and why that order is the cheapest one.
 */
module SiblingOrder {
  import opened Wrappers
  import opened KeywordTrie

  /** keyWordWeights: observed frequencies of whole words. */
  type Frequencies = map<Word, real>

  function SelfWeight(freq: Frequencies, full: Word): (w: real)
  {
    if full in freq then freq[full] else 0.0
  }

  /** The sum of the frequencies of the words spelt at the nodes of `t`, which hangs below `prefix`. */
  function Weight(freq: Frequencies, t: Tree, prefix: Word): (w: real)
    decreases t, 1
  {
    SelfWeight(freq, prefix + t.prefix) + Sum(Weights(freq, t.kids, prefix + t.prefix))
  }

  function Weights(freq: Frequencies, kids: seq<Tree>, full: Word): (ws: seq<real>)
    decreases kids, 0
  {
    seq(|kids|, i requires 0 <= i < |kids| => Weight(freq, kids[i], full))
  }

  function Sum(ws: seq<real>): (s: real)
  {
    if ws == [] then 0.0 else ws[0] + Sum(ws[1..])
  }

  // ----- Sorting siblings

  /** Places `kid` before the first sibling that is not heavier. */
  function Place(freq: Frequencies, kid: Tree, kids: seq<Tree>, full: Word): (r: seq<Tree>)
  {
    if kids == [] || Weight(freq, kids[0], full) <= Weight(freq, kid, full) then [kid] + kids
    else [kids[0]] + Place(freq, kid, kids[1..], full)
  }

  /** sorted(..., reverse=True) by weight: stable and descending. */
  function Sorted(freq: Frequencies, kids: seq<Tree>, full: Word): (r: seq<Tree>)
  {
    if kids == [] then [] else Place(freq, kids[0], Sorted(freq, kids[1..], full), full)
  }

  /** The tree whose sibling order fillOut leaves, everything below `prefix`. */
  function FillOut(freq: Frequencies, t: Tree, prefix: Word): (r: Tree)
    decreases t, 1
  {
    t.(kids := Sorted(freq, FillOutAll(freq, t.kids, prefix + t.prefix), prefix + t.prefix))
  }

  function FillOutAll(freq: Frequencies, kids: seq<Tree>, full: Word): (r: seq<Tree>)
    decreases kids, 0
  {
    seq(|kids|, i requires 0 <= i < |kids| => FillOut(freq, kids[i], full))
  }

  predicate Descending(freq: Frequencies, kids: seq<Tree>, full: Word)
  {
    forall i, j :: 0 <= i < j < |kids| ==> Weight(freq, kids[i], full) >= Weight(freq, kids[j], full)
  }

  lemma {:induction false} PlacePermutes(freq: Frequencies, kid: Tree, kids: seq<Tree>, full: Word)
    ensures multiset(Place(freq, kid, kids, full)) == multiset([kid] + kids)
  {
    if kids == [] || Weight(freq, kids[0], full) <= Weight(freq, kid, full) {
    } else {
      PlacePermutes(freq, kid, kids[1..], full);
      assert kids == [kids[0]] + kids[1..];
    }
  }

  lemma {:induction false} PlaceSorts(freq: Frequencies, kid: Tree, kids: seq<Tree>, full: Word)
    requires Descending(freq, kids, full)
    ensures Descending(freq, Place(freq, kid, kids, full), full)
  {
    if kids == [] || Weight(freq, kids[0], full) <= Weight(freq, kid, full) {
    } else {
      var rest := Place(freq, kid, kids[1..], full);
      PlaceSorts(freq, kid, kids[1..], full);
      PlacePermutes(freq, kid, kids[1..], full);
      forall i | 0 <= i < |rest| ensures Weight(freq, rest[i], full) <= Weight(freq, kids[0], full) {
        var j := Locate(rest, [kid] + kids[1..], i);
        assert j > 0 ==> rest[i] == kids[j];
      }
    }
  }

  /** Sorting rearranges the siblings in descending weight. */
  lemma {:induction false} SortedSorts(freq: Frequencies, kids: seq<Tree>, full: Word)
    ensures multiset(Sorted(freq, kids, full)) == multiset(kids)
    ensures Descending(freq, Sorted(freq, kids, full), full)
  {
    if kids != [] {
      SortedSorts(freq, kids[1..], full);
      PlaceSorts(freq, kids[0], Sorted(freq, kids[1..], full), full);
      PlacePermutes(freq, kids[0], Sorted(freq, kids[1..], full), full);
      assert kids == [kids[0]] + kids[1..];
    }
  }

  // ----- The same order as positions

  /** Distinct positions below `n`. */
  predicate Indices(order: seq<nat>, n: nat)
  {
    && (forall i :: 0 <= i < |order| ==> order[i] < n)
    && (forall i, j :: 0 <= i < j < |order| ==> order[i] != order[j])
  }

  function Pick<T>(s: seq<T>, order: seq<nat>): (r: seq<T>)
    requires Indices(order, |s|)
  {
    seq(|order|, i requires 0 <= i < |order| => s[order[i]])
  }

  function PlaceIndex(ws: seq<real>, n: nat, order: seq<nat>): (r: seq<nat>)
    requires n < |ws| && Indices(order, |ws|) && n !in order
    ensures forall x :: x in r ==> x == n || x in order
    ensures Indices(r, |ws|)
  {
    if order == [] || ws[order[0]] <= ws[n] then [n] + order
    else
      assert order[0] !in order[1..];
      [order[0]] + PlaceIndex(ws, n, order[1..])
  }

  /** The positions from `n` on, heaviest first. */
  function Order(ws: seq<real>, n: nat): (r: seq<nat>)
    requires n <= |ws|
    ensures Indices(r, |ws|) && forall x :: x in r ==> n <= x
    decreases |ws| - n
  {
    if n == |ws| then [] else PlaceIndex(ws, n, Order(ws, n + 1))
  }

  lemma {:induction false} PlaceIndexPicks(freq: Frequencies, trees: seq<Tree>, ws: seq<real>, full: Word, n: nat, order: seq<nat>)
    requires ws == Weights(freq, trees, full) && n < |ws| && Indices(order, |ws|) && n !in order
    ensures Pick(trees, PlaceIndex(ws, n, order)) == Place(freq, trees[n], Pick(trees, order), full)
  {
    var kids := Pick(trees, order);
    assert Weight(freq, trees[n], full) == ws[n];
    if order == [] {
      assert kids == [];
      PickCons(trees, n, order);
    } else {
      assert Weight(freq, kids[0], full) == ws[order[0]];
      if ws[order[0]] <= ws[n] {
        PickCons(trees, n, order);
      } else {
        var rest := order[1..];
        PlaceIndexPicks(freq, trees, ws, full, n, rest);
        assert kids[1..] == Pick(trees, rest);
        assert PlaceIndex(ws, n, order) == [order[0]] + PlaceIndex(ws, n, rest);
        PickCons(trees, order[0], PlaceIndex(ws, n, rest));
      }
    }
  }

  lemma PickCons<T>(s: seq<T>, x: nat, order: seq<nat>)
    requires x < |s| && Indices([x] + order, |s|) && Indices(order, |s|)
    ensures Pick(s, [x] + order) == [s[x]] + Pick(s, order)
  {
    hide Indices;
    var all := [x] + order;
    assert |Pick(s, all)| == |[s[x]] + Pick(s, order)|;
    forall i | 0 <= i < |all| ensures Pick(s, all)[i] == ([s[x]] + Pick(s, order))[i] {
      if i > 0 {
        assert all[i] == order[i - 1];
      }
    }
  }

  /** Sorting the positions by weight sorts the siblings. */
  lemma {:induction false} OrderSorts(freq: Frequencies, trees: seq<Tree>, ws: seq<real>, full: Word, n: nat)
    requires ws == Weights(freq, trees, full) && n <= |ws|
    ensures Pick(trees, Order(ws, n)) == Sorted(freq, trees[n..], full)
    decreases |ws| - n
  {
    if n < |ws| {
      OrderSorts(freq, trees, ws, full, n + 1);
      assert trees[n..][1..] == trees[n + 1..];
      PlaceIndexPicks(freq, trees, ws, full, n, Order(ws, n + 1));
    }
  }

  // ----- Rearrangements of a tree

  /** `u` is `t` with the children of any node in any order. */
  ghost predicate Reordered(t: Tree, u: Tree)
    decreases t
  {
    && t.prefix == u.prefix && t.value == u.value
    && exists mid: seq<Tree> :: Rearranged(t, mid, u)
  }

  /** `mid` holds the reordered children of `t` one for one, and `u` has them in some order. */
  ghost predicate Rearranged(t: Tree, mid: seq<Tree>, u: Tree)
    decreases t, 0
  {
    && |mid| == |t.kids| && multiset(mid) == multiset(u.kids)
    && forall i :: 0 <= i < |mid| ==> Reordered(t.kids[i], mid[i])
  }

  lemma {:induction false} FillOutReorders(freq: Frequencies, t: Tree, prefix: Word)
    ensures Reordered(t, FillOut(freq, t, prefix))
    decreases t
  {
    var full := prefix + t.prefix;
    var mid := FillOutAll(freq, t.kids, full);
    SortedSorts(freq, mid, full);
    forall i | 0 <= i < |mid| ensures Reordered(t.kids[i], mid[i]) {
      FillOutReorders(freq, t.kids[i], full);
    }
    assert Rearranged(t, mid, FillOut(freq, t, prefix));
  }

  /** Equal multisets: an element of one sequence sits somewhere in the other. */
  lemma Locate<T>(a: seq<T>, b: seq<T>, i: nat) returns (j: nat)
    requires multiset(a) == multiset(b) && i < |a|
    ensures j < |b| && b[j] == a[i]
  {
    assert a[i] in multiset(b);
    j :| 0 <= j < |b| && b[j] == a[i];
  }

  /** Two positions of one sequence land on two positions of a rearrangement. */
  lemma Relocate(a: seq<Tree>, b: seq<Tree>)
    requires multiset(a) == multiset(b) && Branching(a)
    ensures Branching(b)
  {
    forall i | 0 <= i < |b| ensures b[i].prefix != [] {
      var x := Locate(b, a, i);
    }
    forall i, j | 0 <= i < j < |b| ensures b[i].prefix[0] != b[j].prefix[0] {
      var x := Locate(b, a, i);
      var y := Locate(b, a, j);
      Once(a, x);
      if b[i] == b[j] {
        Twice(b, i, j);
      }
    }
  }

  lemma Twice<T>(b: seq<T>, i: nat, j: nat)
    requires i < j < |b| && b[i] == b[j]
    ensures multiset(b)[b[i]] >= 2
  {
    assert b == b[..i] + [b[i]] + b[i + 1..j] + [b[j]] + b[j + 1..];
  }

  lemma Once(a: seq<Tree>, x: nat)
    requires Branching(a) && x < |a|
    ensures multiset(a)[a[x]] == 1
  {
    assert a == a[..x] + [a[x]] + a[x + 1..];
    assert a[x] !in a[..x] && a[x] !in a[x + 1..];
  }

  /** Reordering keeps siblings apart. */
  lemma {:induction false} ReorderedShape(t: Tree, u: Tree)
    requires WellFormed(t) && Reordered(t, u)
    ensures WellFormed(u)
    decreases t
  {
    var mid: seq<Tree> :| Rearranged(t, mid, u);
    forall i | 0 <= i < |mid| ensures mid[i].prefix == t.kids[i].prefix && WellFormed(mid[i]) {
      ReorderedShape(t.kids[i], mid[i]);
    }
    Relocate(mid, u.kids);
    forall i | 0 <= i < |u.kids| ensures WellFormed(u.kids[i]) {
      var j := Locate(u.kids, mid, i);
    }
  }

  lemma {:induction false} ReorderedChars(t: Tree, u: Tree, p: nat -> bool)
    requires AllChars(t, p) && Reordered(t, u)
    ensures AllChars(u, p)
    decreases t
  {
    var mid: seq<Tree> :| Rearranged(t, mid, u);
    forall i | 0 <= i < |u.kids| ensures AllChars(u.kids[i], p) {
      var j := Locate(u.kids, mid, i);
      ReorderedChars(t.kids[j], mid[j], p);
    }
  }

  lemma {:induction false} ReorderedLive(t: Tree, u: Tree)
    requires Live(t) && Reordered(t, u)
    ensures Live(u) && |u.kids| == |t.kids|
    decreases t
  {
    var mid: seq<Tree> :| Rearranged(t, mid, u);
    assert |mid| == |multiset(mid)| == |u.kids|;
    forall i | 0 <= i < |u.kids| ensures Live(u.kids[i]) && (u.kids[i].value.Some? || u.kids[i].kids != []) {
      var j := Locate(u.kids, mid, i);
      ReorderedLive(t.kids[j], mid[j]);
    }
  }

  /** No order of siblings changes an answer. */
  lemma {:induction false} ReorderedFind(t: Tree, u: Tree, w: Word)
    requires WellFormed(t) && Reordered(t, u)
    ensures Find(u, w) == Find(t, w)
    decreases t
  {
    var mid: seq<Tree> :| Rearranged(t, mid, u);
    ReorderedShape(t, u);
    if w != [] {
      if i :| 0 <= i < |t.kids| && t.kids[i].prefix[0] == w[0] {
        var j := Locate(mid, u.kids, i);
        assert Reordered(t.kids[i], mid[i]);
        FindKidsPicks(t.kids, w, i);
        FindKidsPicks(u.kids, w, j);
        if t.kids[i].prefix <= w {
          ReorderedFind(t.kids[i], mid[i], w[|t.kids[i].prefix|..]);
        }
      } else {
        FindKidsMisses(t.kids, w);
        forall j | 0 <= j < |u.kids| ensures u.kids[j].prefix[0] != w[0] {
          var i := Locate(u.kids, mid, j);
          assert Reordered(t.kids[i], mid[i]);
        }
        FindKidsMisses(u.kids, w);
      }
    }
  }

  // ----- Descending order is cheapest

  /** Comparisons that fail before the `i`th sibling is reached, weighted by how often it is: the sum of (k + i) * ws[i]. */
  function Failures(ws: seq<real>, k: nat): (c: real)
  {
    if ws == [] then 0.0 else k as real * ws[0] + Failures(ws[1..], k + 1)
  }

  /** `Failures` of every node of `t`. */
  function Cost(freq: Frequencies, t: Tree, prefix: Word): (c: real)
    decreases t, 1
  {
    Failures(Weights(freq, t.kids, prefix + t.prefix), 0) + Sum(Costs(freq, t.kids, prefix + t.prefix))
  }

  function Costs(freq: Frequencies, kids: seq<Tree>, full: Word): (cs: seq<real>)
    decreases kids, 0
  {
    seq(|kids|, i requires 0 <= i < |kids| => Cost(freq, kids[i], full))
  }

  /** The same count by suffixes: everything behind the first sibling fails against it once. */
  function Suffixes(ws: seq<real>): (c: real)
  {
    if ws == [] then 0.0 else Sum(ws[1..]) + Suffixes(ws[1..])
  }

  lemma {:induction false} FailuresFrom(ws: seq<real>, k: nat)
    ensures Failures(ws, k) == k as real * Sum(ws) + Suffixes(ws)
  {
    if ws != [] {
      FailuresFrom(ws[1..], k + 1);
      OneMore(k, ws[0], Sum(ws[1..]));
    }
  }

  lemma OneMore(k: nat, x: real, y: real)
    ensures k as real * x + (k + 1) as real * y == k as real * (x + y) + y
  {
  }

  lemma FailuresAreSuffixes(ws: seq<real>)
    ensures Failures(ws, 0) == Suffixes(ws)
  {
    FailuresFrom(ws, 0);
    assert 0 as real * Sum(ws) == 0.0;
  }

  function Without<T>(s: seq<T>, j: nat): (r: seq<T>)
    requires j < |s|
  {
    s[..j] + s[j + 1..]
  }

  lemma WithoutMultiset<T>(a: seq<T>, b: seq<T>, j: nat)
    requires a != [] && multiset(a) == multiset(b) && j < |b| && b[j] == a[0]
    ensures multiset(a[1..]) == multiset(Without(b, j))
  {
    assert a == [a[0]] + a[1..];
    assert b == b[..j] + [b[j]] + b[j + 1..];
    assert multiset(a[1..]) == multiset(a) - multiset{a[0]};
    assert multiset(Without(b, j)) == multiset(b) - multiset{b[j]};
  }

  lemma {:induction false} SumWithout(ws: seq<real>, j: nat)
    requires j < |ws|
    ensures Sum(ws) == ws[j] + Sum(Without(ws, j))
    ensures j > 0 ==> Without(ws, j) != [] && Without(ws, j)[0] == ws[0] && Without(ws, j)[1..] == Without(ws[1..], j - 1)
  {
    if j == 0 {
      assert Without(ws, 0) == ws[1..];
    } else {
      SumWithout(ws[1..], j - 1);
      assert Without(ws, j)[1..] == Without(ws[1..], j - 1);
    }
  }

  /** Taking out a sibling at least as heavy as all others saves at least the weight of the rest. */
  lemma {:induction false} TakeOut(ws: seq<real>, j: nat)
    requires j < |ws| && forall i :: 0 <= i < |ws| ==> ws[i] <= ws[j]
    ensures Suffixes(ws) >= Suffixes(Without(ws, j)) + Sum(Without(ws, j))
  {
    SumWithout(ws, j);
    if j == 0 {
      assert Without(ws, 0) == ws[1..];
    } else {
      SumWithout(ws[1..], j - 1);
      TakeOut(ws[1..], j - 1);
    }
  }

  /** The first of a descending sequence tops every rearrangement of it. */
  lemma FirstIsLargest(a: seq<real>, b: seq<real>) returns (j: nat)
    requires a != [] && multiset(a) == multiset(b)
    requires forall i :: 0 <= i < |a| ==> a[0] >= a[i]
    ensures j < |b| && b[j] == a[0] && forall i :: 0 <= i < |b| ==> b[i] <= b[j]
  {
    j := Locate(a, b, 0);
    forall i | 0 <= i < |b| ensures b[i] <= b[j] {
      var x := Locate(b, a, i);
    }
  }

  lemma {:induction false} DescendingSuffixes(a: seq<real>, b: seq<real>)
    requires multiset(a) == multiset(b)
    requires forall i, j :: 0 <= i < j < |a| ==> a[i] >= a[j]
    ensures Sum(a) == Sum(b) && Suffixes(a) <= Suffixes(b)
  {
    assert |a| == |multiset(a)| == |b|;
    if a != [] {
      var j := FirstIsLargest(a, b);
      WithoutMultiset(a, b, j);
      DescendingSuffixes(a[1..], Without(b, j));
      SumWithout(b, j);
      TakeOut(b, j);
    }
  }

  /** Among all orders of the same weights, a descending one has the fewest weighted failures. */
  lemma DescendingIsCheapest(a: seq<real>, b: seq<real>)
    requires multiset(a) == multiset(b)
    requires forall i, j :: 0 <= i < j < |a| ==> a[i] >= a[j]
    ensures Failures(a, 0) <= Failures(b, 0)
  {
    FailuresAreSuffixes(a);
    FailuresAreSuffixes(b);
    DescendingSuffixes(a, b);
  }

  function Image<T, U>(f: T -> U, s: seq<T>): (r: seq<U>)
  {
    seq(|s|, i requires 0 <= i < |s| => f(s[i]))
  }

  /** Rearranging a sequence rearranges anything measured on its elements. */
  lemma {:induction false} ImagePermutes<T, U>(f: T -> U, a: seq<T>, b: seq<T>)
    requires multiset(a) == multiset(b)
    ensures multiset(Image(f, a)) == multiset(Image(f, b))
  {
    assert |a| == |multiset(a)| == |b|;
    if a != [] {
      var j := Locate(a, b, 0);
      WithoutMultiset(a, b, j);
      ImagePermutes(f, a[1..], Without(b, j));
      assert Image(f, a) == [f(a[0])] + Image(f, a[1..]);
      ImageWithout(f, b, j);
    }
  }

  lemma ImageWithout<T, U>(f: T -> U, b: seq<T>, j: nat)
    requires j < |b|
    ensures multiset(Image(f, b)) == multiset{f(b[j])} + multiset(Image(f, Without(b, j)))
  {
    var r := Image(f, b);
    assert Image(f, Without(b, j)) == Without(r, j);
    assert r == r[..j] + [r[j]] + r[j + 1..];
  }

  lemma {:induction false} SumPermutes(a: seq<real>, b: seq<real>)
    requires multiset(a) == multiset(b)
    ensures Sum(a) == Sum(b)
  {
    assert |a| == |multiset(a)| == |b|;
    if a != [] {
      var j := Locate(a, b, 0);
      WithoutMultiset(a, b, j);
      SumWithout(b, j);
      SumPermutes(a[1..], Without(b, j));
    }
  }

  /** Subtree weights do not depend on sibling order. */
  lemma {:induction false} ReorderedWeight(freq: Frequencies, t: Tree, u: Tree, prefix: Word)
    requires Reordered(t, u)
    ensures Weight(freq, u, prefix) == Weight(freq, t, prefix)
    decreases t
  {
    var mid: seq<Tree> :| Rearranged(t, mid, u);
    var full := prefix + t.prefix;
    forall i | 0 <= i < |mid| ensures Weight(freq, mid[i], full) == Weight(freq, t.kids[i], full) {
      ReorderedWeight(freq, t.kids[i], mid[i], full);
    }
    WeightsPermute(freq, t.kids, mid, u.kids, full);
  }

  /** Filling out the children does not change what they weigh. */
  lemma FilledWeights(freq: Frequencies, kids: seq<Tree>, full: Word)
    ensures Weights(freq, FillOutAll(freq, kids, full), full) == Weights(freq, kids, full)
  {
    forall i | 0 <= i < |kids| ensures Weight(freq, FillOut(freq, kids[i], full), full) == Weight(freq, kids[i], full) {
      FillOutReorders(freq, kids[i], full);
      ReorderedWeight(freq, kids[i], FillOut(freq, kids[i], full), full);
    }
  }

  lemma FilledSnoc(freq: Frequencies, kids: seq<Tree>, i: nat, full: Word)
    requires i < |kids|
    ensures FillOutAll(freq, kids[..i + 1], full) == FillOutAll(freq, kids[..i], full) + [FillOut(freq, kids[i], full)]
    ensures Weights(freq, kids[..i + 1], full) == Weights(freq, kids[..i], full) + [Weight(freq, kids[i], full)]
  {
    Slices(kids, i);
    var some, more := kids[..i], kids[..i + 1];
    assert forall j :: 0 <= j < i ==> some[j] == more[j];
  }

  /** Moving a cut one to the right. */
  lemma Slices<T>(s: seq<T>, i: nat)
    requires i < |s|
    ensures s[i..] == [s[i]] + s[i + 1..] && s[i..][1..] == s[i + 1..] && s[..i + 1] == s[..i] + [s[i]]
  {
  }

  lemma {:induction false} SumSnoc(ws: seq<real>, w: real)
    ensures Sum(ws + [w]) == Sum(ws) + w
  {
    if ws != [] {
      SumSnoc(ws[1..], w);
      assert (ws + [w])[1..] == ws[1..] + [w];
    }
  }

  lemma WeightsPermute(freq: Frequencies, kids: seq<Tree>, mid: seq<Tree>, order: seq<Tree>, full: Word)
    requires |mid| == |kids| && multiset(mid) == multiset(order)
    requires forall i :: 0 <= i < |mid| ==> Weight(freq, mid[i], full) == Weight(freq, kids[i], full)
    ensures multiset(Weights(freq, order, full)) == multiset(Weights(freq, kids, full))
    ensures Sum(Weights(freq, order, full)) == Sum(Weights(freq, kids, full))
  {
    var f := (k: Tree) => Weight(freq, k, full);
    ImagePermutes(f, mid, order);
    assert Weights(freq, order, full) == Image(f, order);
    assert Weights(freq, kids, full) == Image(f, mid);
    SumPermutes(Image(f, mid), Image(f, order));
  }

  lemma CostsPermute(freq: Frequencies, mid: seq<Tree>, order: seq<Tree>, full: Word)
    requires multiset(mid) == multiset(order)
    ensures Sum(Costs(freq, order, full)) == Sum(Costs(freq, mid, full))
  {
    var f := (k: Tree) => Cost(freq, k, full);
    ImagePermutes(f, mid, order);
    assert Costs(freq, order, full) == Image(f, order);
    assert Costs(freq, mid, full) == Image(f, mid);
    SumPermutes(Image(f, mid), Image(f, order));
  }

  lemma {:induction false} SumMonotone(a: seq<real>, b: seq<real>)
    requires |a| == |b| && forall i :: 0 <= i < |a| ==> a[i] <= b[i]
    ensures Sum(a) <= Sum(b)
  {
    if a != [] {
      SumMonotone(a[1..], b[1..]);
    }
  }

  /** At one node, the chosen order fails least often. */
  lemma SiblingsAreCheapest(freq: Frequencies, kids: seq<Tree>, filled: seq<Tree>, order: seq<Tree>, mid: seq<Tree>, full: Word)
    requires |mid| == |kids| == |filled| && multiset(mid) == multiset(order)
    requires forall i :: 0 <= i < |kids| ==> Weight(freq, mid[i], full) == Weight(freq, kids[i], full)
    requires forall i :: 0 <= i < |kids| ==> Weight(freq, filled[i], full) == Weight(freq, kids[i], full)
    ensures Failures(Weights(freq, Sorted(freq, filled, full), full), 0) <= Failures(Weights(freq, order, full), 0)
  {
    SortedSorts(freq, filled, full);
    WeightsPermute(freq, kids, mid, order, full);
    WeightsPermute(freq, kids, filled, Sorted(freq, filled, full), full);
    DescendingIsCheapest(Weights(freq, Sorted(freq, filled, full), full), Weights(freq, order, full));
  }

  /** The order fillOut chooses makes the whole decision tree fail least often, against every order of every node. */
  lemma {:induction false} FillOutIsCheapest(freq: Frequencies, t: Tree, u: Tree, prefix: Word)
    requires Reordered(t, u)
    ensures Cost(freq, FillOut(freq, t, prefix), prefix) <= Cost(freq, u, prefix)
    decreases t
  {
    var mid: seq<Tree> :| Rearranged(t, mid, u);
    var full := prefix + t.prefix;
    var filled := FillOutAll(freq, t.kids, full);
    forall i | 0 <= i < |mid|
      ensures Weight(freq, mid[i], full) == Weight(freq, t.kids[i], full)
      ensures Weight(freq, filled[i], full) == Weight(freq, t.kids[i], full)
      ensures Cost(freq, filled[i], full) <= Cost(freq, mid[i], full)
    {
      FillOutReorders(freq, t.kids[i], full);
      ReorderedWeight(freq, t.kids[i], filled[i], full);
      ReorderedWeight(freq, t.kids[i], mid[i], full);
      FillOutIsCheapest(freq, t.kids[i], mid[i], full);
    }
    SiblingsAreCheapest(freq, t.kids, filled, u.kids, mid, full);
    SortedSorts(freq, filled, full);
    CostsPermute(freq, mid, u.kids, full);
    CostsPermute(freq, filled, Sorted(freq, filled, full), full);
    SumMonotone(Costs(freq, filled, full), Costs(freq, mid, full));
  }
}
