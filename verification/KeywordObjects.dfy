/**
 class Trie of KeywordLookupGenerator.py: the linked nodes the generator
 updates in place, each operation tied to its meaning on trees.
 */
module KeywordObjects {
  import opened Wrappers
  import opened KeywordTrie
  import opened SiblingOrder
  import opened KeywordEmit

  class Trie {
    var prefix: Word
    var keys: seq<Trie>          // the dictionary, in insertion order
    var value: Option<string>
    var fullPrefix: Word         // set by FillOut, with the two weights
    var selfWeight: real
    var weight: real
    ghost var tree: Tree         // the value this node stands for
    ghost var Repr: set<object>

    ghost predicate Valid()
      reads this, Repr
      decreases Repr
      ensures Valid() ==> this in Repr
    {
      && this in Repr
      && tree.prefix == prefix && tree.value == value && |tree.kids| == |keys|
      && (forall i :: 0 <= i < |keys| ==>
            keys[i] in Repr && keys[i].Repr <= Repr && this !in keys[i].Repr && keys[i].Valid() && keys[i].tree == tree.kids[i])
      && (forall i, j :: 0 <= i < j < |keys| ==> keys[i].Repr !! keys[j].Repr)
    }

    constructor (prefix: Word)
      ensures Valid() && fresh(Repr) && tree == Node(prefix, None, [])
    {
      this.prefix := prefix;
      keys := [];
      value := None;
      fullPrefix, selfWeight, weight := [], 0.0, 0.0;
      tree := Node(prefix, None, []);
      Repr := {this};
    }

    /** `label in self.keys`: the position of the child, or the number of children. */
    static method Lookup(keys: seq<Trie>, label': Word, ghost trees: seq<Tree>) returns (i: nat)
      requires |trees| == |keys| && forall j :: 0 <= j < |keys| ==> keys[j].prefix == trees[j].prefix
      ensures i == IndexOf(trees, label')
    {
      i := 0;
      while i < |keys| && keys[i].prefix != label'
        invariant i <= |keys| && i + IndexOf(trees[i..], label') == IndexOf(trees, label')
      {
        i := i + 1;
      }
    }

    method Insert(key: Word, token: string)
      requires Valid()
      modifies Repr
      ensures Valid() && fresh(Repr - old(Repr))
      ensures tree == KeywordTrie.Insert(old(tree), key, token)
      decreases |key|, 1
    {
      if key == [] {
        value := Some(token);
        tree := tree.(value := Some(token));
        return;
      }
      var i := Lookup(keys, key[..1], tree.kids);
      if i == |keys| {
        AddKid(key[..1]);
      }
      InsertBelow(i, key[1..], token);
    }

    /** self.keys[key[0]] = Trie(key[0]) */
    method AddKid(key: Word)
      requires Valid()
      modifies this
      ensures Valid() && fresh(Repr - old(Repr))
      ensures tree == old(tree).(kids := old(tree).kids + [Node(key, None, [])])
    {
      var kid := new Trie(key);
      keys := keys + [kid];
      tree := tree.(kids := tree.kids + [kid.tree]);
      Repr := Repr + kid.Repr;
    }

    /** self.keys[i].insert(key, token) */
    method InsertBelow(i: nat, key: Word, token: string)
      requires Valid() && i < |keys|
      modifies Repr
      ensures Valid() && fresh(Repr - old(Repr))
      ensures tree == old(tree).(kids := old(tree).kids[i := KeywordTrie.Insert(old(tree).kids[i], key, token)])
      decreases |key|, 2
    {
      var kid := keys[i];
      kid.Insert(key, token);
      assert forall j :: 0 <= j < |keys| && j != i ==> keys[j].Valid() && keys[j].Repr == old(keys[j].Repr) && keys[j].Repr !! kid.Repr;
      assert this !in kid.Repr;
      Repr := Repr + kid.Repr;
      tree := tree.(kids := tree.kids[i := kid.tree]);
    }

    // ----- Path compression

    /** Independent subtries standing for `trees`, all of them inside `R`. */
    static ghost predicate Forest(keys: seq<Trie>, trees: seq<Tree>, R: set<object>)
      reads R
    {
      && |trees| == |keys|
      && (forall i :: 0 <= i < |keys| ==> keys[i] in R && keys[i].Repr <= R && keys[i].Valid() && keys[i].tree == trees[i])
      && (forall i, j :: 0 <= i < j < |keys| ==> keys[i].Repr !! keys[j].Repr)
    }

    /** The first subtrie is independent of the rest. */
    static lemma ForestTail(keys: seq<Trie>, trees: seq<Tree>, R: set<object>)
      requires Forest(keys, trees, R) && keys != []
      ensures Forest(keys[1..], trees[1..], R - keys[0].Repr)
      ensures keys[0].Valid() && keys[0].tree == trees[0] && keys[0].Repr <= R
    {
    }

    /** keys[t.prefix] = t */
    static method Store(keys: seq<Trie>, t: Trie, ghost trees: seq<Tree>, ghost R: set<object>) returns (r: seq<Trie>)
      requires Forest(keys, trees, R) && t.Valid() && t.Repr !! R
      ensures Forest(r, Put(trees, t.tree), R + t.Repr)
    {
      var i := Lookup(keys, t.prefix, trees);
      r := if i < |keys| then keys[i := t] else keys + [t];
    }

    /** The loop of coalesce: every child is replaced by what its own coalesce returns. */
    method CoalesceKeys()
      requires Valid()
      modifies Repr
      ensures Valid() && fresh(Repr - old(Repr)) && tree == CoalesceSelf(old(tree))
      decreases Repr, 0
    {
      var done := [];
      ghost var trees, R, rest := [], {}, Repr - {this};
      var i := 0;
      while i < |keys|
        invariant i <= |keys| && unchanged(this)
        invariant Forest(keys[i..], tree.kids[i..], rest) && rest <= old(Repr) - {this}
        invariant Forest(done, trees, R) && R !! rest && this !in R && fresh(R - old(Repr))
        invariant CoalesceAll(tree.kids[i..], trees) == CoalesceAll(tree.kids, [])
      {
        ForestTail(keys[i..], tree.kids[i..], rest);
        CoalesceAllStep(tree.kids, i, trees);
        Slices(keys, i);
        Slices(tree.kids, i);
        rest := rest - keys[i].Repr;
        var kid := keys[i].Coalesce();
        done := Store(done, kid, trees, R);
        trees, R := Put(trees, kid.tree), R + kid.Repr;
        i := i + 1;
      }
      Install(done, trees, R);
    }

    /** self.keys = keys */
    method Install(keys: seq<Trie>, ghost trees: seq<Tree>, ghost R: set<object>)
      requires Forest(keys, trees, R) && this !in R && tree.prefix == prefix && tree.value == value
      modifies this
      ensures Valid() && Repr == {this} + R && tree == old(tree).(kids := trees)
      ensures this.keys == keys && prefix == old(prefix) && value == old(value)
    {
      this.keys := keys;
      tree := tree.(kids := trees);
      Repr := {this} + R;
      assert Forest(keys, trees, R);
    }

    method Coalesce() returns (t: Trie)
      requires Valid()
      modifies Repr
      ensures Valid() && fresh(Repr - old(Repr)) && tree == CoalesceSelf(old(tree))
      ensures t.Valid() && fresh(t.Repr - old(Repr)) && t.tree == KeywordTrie.Coalesce(old(tree))
      decreases Repr, 1
    {
      CoalesceKeys();
      if value.Some? || |keys| != 1 {
        return this;
      }
      var suffix := keys[0];
      t := new Trie(prefix + suffix.prefix);
      t.value := suffix.value;
      t.keys := suffix.keys;
      t.tree := Node(t.prefix, suffix.value, suffix.tree.kids);
      t.Repr := {t} + suffix.Repr;
    }

    // ----- Weights and order

    /** Every node knows the word its path spells. */
    ghost predicate Filled(prefix: Word)
      requires Valid()
      reads this, Repr
      decreases Repr
    {
      fullPrefix == prefix + this.prefix && forall i :: 0 <= i < |keys| ==> keys[i].Filled(fullPrefix)
    }

    static ghost predicate FilledForest(keys: seq<Trie>, trees: seq<Tree>, R: set<object>, full: Word)
      reads R
    {
      Forest(keys, trees, R) && forall i :: 0 <= i < |keys| ==> keys[i].Filled(full)
    }

    static lemma ForestSnoc(keys: seq<Trie>, trees: seq<Tree>, R: set<object>, full: Word, t: Trie)
      requires FilledForest(keys, trees, R, full) && t.Valid() && t.Filled(full) && t.Repr !! R
      ensures FilledForest(keys + [t], trees + [t.tree], R + t.Repr, full)
    {
    }

    /** Rearranging independent subtries leaves them independent. */
    static lemma ForestPick(keys: seq<Trie>, trees: seq<Tree>, R: set<object>, full: Word, order: seq<nat>)
      requires FilledForest(keys, trees, R, full) && Indices(order, |keys|)
      ensures FilledForest(Pick(keys, order), Pick(trees, order), R, full)
    {
      forall i, j | 0 <= i < j < |order| ensures keys[order[i]].Repr !! keys[order[j]].Repr {
        assert order[i] != order[j];
      }
    }

    /** The assignments that end fillOut. */
    method Settle(keys: seq<Trie>, full: Word, self: real, total: real, ghost trees: seq<Tree>, ghost R: set<object>)
      requires FilledForest(keys, trees, R, full) && this !in R && tree.prefix == prefix && tree.value == value
      modifies this
      ensures Valid() && Repr == {this} + R && tree == old(tree).(kids := trees) && prefix == old(prefix)
      ensures fullPrefix == full && selfWeight == self && weight == self + total
      ensures forall i :: 0 <= i < |this.keys| ==> this.keys[i].Filled(full)
    {
      Install(keys, trees, R);
      assert FilledForest(keys, trees, R, full);
      fullPrefix := full;
      selfWeight := self;
      weight := self + total;
    }

    /** One round of the loop of fillOut; the parts before and after the child stay as they are. */
    static method FillOutNext(keys: seq<Trie>, i: nat, freq: Frequencies, full: Word,
                              ghost kids: seq<Tree>, ghost trees: seq<Tree>, ghost R: set<object>, ghost rest: set<object>)
      returns (w: real, ghost taken: set<object>)
      requires i < |keys| == |kids| && R !! rest
      requires FilledForest(keys[..i], trees, R, full) && Forest(keys[i..], kids[i..], rest)
      modifies rest
      ensures taken <= rest && FilledForest(keys[..i + 1], trees + [SiblingOrder.FillOut(freq, kids[i], full)], R + taken, full)
      ensures Forest(keys[i + 1..], kids[i + 1..], rest - taken)
      ensures w == Weight(freq, kids[i], full)
      decreases rest, 2
    {
      Slices(keys, i);
      Slices(kids, i);
      ForestTail(keys[i..], kids[i..], rest);
      var kid := keys[i];
      taken := kid.Repr;
      kid.FillOut(freq, full);
      ForestSnoc(keys[..i], trees, R, full, kid);
      w := kid.weight;
    }

    /** The loop of fillOut: every child is filled out and weighed. */
    static method FillOutKeys(keys: seq<Trie>, freq: Frequencies, full: Word, ghost kids: seq<Tree>, ghost S: set<object>)
      returns (weights: seq<real>, total: real)
      requires Forest(keys, kids, S)
      modifies S
      ensures FilledForest(keys, FillOutAll(freq, kids, full), S, full)
      ensures weights == Weights(freq, kids, full) && total == Sum(weights)
      decreases S, 3
    {
      ghost var trees, R, rest := [], {}, S;
      weights, total := [], 0.0;
      var i := 0;
      while i < |keys|
        invariant i <= |keys| == |kids| && R !! rest && R + rest == S
        invariant Forest(keys[i..], kids[i..], rest)
        invariant FilledForest(keys[..i], trees, R, full) && trees == FillOutAll(freq, kids[..i], full)
        invariant weights == Weights(freq, kids[..i], full) && total == Sum(weights)
      {
        FilledSnoc(freq, kids, i, full);
        ghost var taken;
        var w;
        w, taken := FillOutNext(keys, i, freq, full, kids, trees, R, rest);
        SumSnoc(weights, w);
        weights, total := weights + [w], total + w;
        trees, R, rest := trees + [SiblingOrder.FillOut(freq, kids[i], full)], R + taken, rest - taken;
        i := i + 1;
      }
      assert keys[..i] == keys && kids[..i] == kids;
    }

    method FillOut(freq: Frequencies, prefix: Word)
      requires Valid()
      modifies Repr
      ensures Valid() && Repr == old(Repr) && Filled(prefix)
      ensures tree == SiblingOrder.FillOut(freq, old(tree), prefix) && weight == Weight(freq, old(tree), prefix)
      decreases Repr, 1
    {
      var full := prefix + this.prefix;
      var weights, total := FillOutKeys(keys, freq, full, tree.kids, Repr - {this});
      var order := Order(weights, 0);
      ghost var trees := FillOutAll(freq, tree.kids, full);
      FilledWeights(freq, tree.kids, full);
      OrderSorts(freq, trees, weights, full, 0);
      assert trees[0..] == trees;
      ForestPick(keys, trees, Repr - {this}, full, order);
      Settle(Pick(keys, order), full, SelfWeight(freq, full), total, Pick(trees, order), Repr - {this});
    }

    // ----- Printing

    method PrintSubTree(ghost above: Word) returns (code: seq<Stmt>)
      requires Valid() && Filled(above)
      ensures code == Emit(tree, fullPrefix)
      decreases Repr
    {
      code := if value.Some? then [Accept(|fullPrefix|, value.value)] else [];
      var arms := [];
      var i := 0;
      while i < |keys|
        invariant i <= |keys| && arms == EmitArms(tree.kids[..i], fullPrefix)
      {
        var trie := keys[i];
        var baseIndex, k := |fullPrefix|, trie.prefix;
        if baseIndex > 0 && |k| == 3 {
          baseIndex := baseIndex - 1;
          k := [trie.fullPrefix[baseIndex]] + k;
        }
        var body := trie.PrintSubTree(fullPrefix);
        EmitArmsSnoc(tree.kids, i, fullPrefix);
        arms := arms + [Arm(baseIndex, k, body)];
        i := i + 1;
      }
      assert tree.kids[..i] == tree.kids;
      if i > 0 {
        code := code + [Branches(arms)];
      }
    }

    method LongestPath(ghost above: Word) returns (n: nat)
      requires Valid() && Filled(above)
      ensures n == MaxLength(tree, fullPrefix)
      decreases Repr
    {
      n := |fullPrefix|;
      var i := 0;
      while i < |keys|
        invariant i <= |keys| && n == Max(|fullPrefix|, MaxLengths(tree.kids[..i], fullPrefix))
      {
        var l := keys[i].LongestPath(fullPrefix);
        MaxLengthsSnoc(tree.kids, i, fullPrefix);
        if l > n {
          n := l;
        }
        i := i + 1;
      }
      assert tree.kids[..i] == tree.kids;
    }
  }

  /** The loop that inserts every row of the table. */
  method LoadTable(table: Table) returns (trie: Trie)
    ensures trie.Valid() && fresh(trie.Repr) && trie.tree == Build(table)
  {
    trie := new Trie([]);
    var i := 0;
    while i < |table|
      invariant i <= |table| && trie.Valid() && fresh(trie.Repr) && trie.tree == Build(table[..i])
    {
      assert table[..i + 1][..i] == table[..i];
      trie.Insert(table[i].0, table[i].1);
      i := i + 1;
    }
    assert table[..i] == table;
  }

  /** The whole run of the generator: the printed parser and maxTokenLength. */
  method RunGenerator(table: Table, freq: Frequencies) returns (code: seq<Stmt>, maxTokenLength: nat)
    ensures code == Emit(Generate(table, freq), [])
    ensures maxTokenLength == MaxLength(Generate(table, freq), []) + 1
  {
    var trie := LoadTable(table);
    BuildMeaning(table, []);
    var _ := trie.Coalesce();  // the root stays the root: what coalesce returns is not used
    trie.FillOut(freq, []);
    code := trie.PrintSubTree([]);
    var n := trie.LongestPath([]);
    maxTokenLength := n + 1;
  }
}
