/** What the order of siblings costs: the tests of the emitted code that fail, weighted by how often each word occurs. */
module KeywordCost {
  import opened Wrappers
  import opened KeywordTrie
  import KeywordCompare
  import opened SiblingOrder
  import opened KeywordEmit

  // ----- Tests that fail in a run

  /** How many comparisons fail while the code runs. */
  function Fails(code: seq<Stmt>, c: Cursor): (n: nat)
    requires Compilable(code) && ReadsBelow(code, |c.code|)
    decreases code, 1
  {
    if code == [] then 0
    else
      match code[0]
      case Accept(end, _) => if c.ident(end) then Fails(code[1..], c) else 0
      case Branches(arms) => FailsArms(arms, c) + if RunArms(arms, c).Return? then 0 else Fails(code[1..], c)
  }

  function FailsArms(arms: seq<Arm>, c: Cursor): (n: nat)
    requires ArmsCompilable(arms) && ArmsReadBelow(arms, |c.code|)
    decreases arms, 0
  {
    if arms == [] then 0
    else if KeywordCompare.Compare(c.cpu, c.u, c.code, arms[0].at, arms[0].chars) then Fails(arms[0].body, c)
    else 1 + FailsArms(arms[1..], c)
  }

  /** How many labels are passed over on the way of `w` down the trie. */
  function Misses(t: Tree, w: Word): (n: nat)
    decreases t, 1
  {
    if w == [] && t.value.Some? then 0 else MissesKids(t.kids, w)
  }

  function MissesKids(kids: seq<Tree>, w: Word): (n: nat)
    decreases kids, 0
  {
    if kids == [] then 0
    else if kids[0].prefix != [] && kids[0].prefix <= w then Misses(kids[0], w[|kids[0].prefix|..])
    else 1 + MissesKids(kids[1..], w)
  }

  /** On every buffer the emitted code fails as many tests as labels are passed over for the identifier at the cursor. */
  lemma {:induction false} EmitMisses(t: Tree, full: Word, c: Cursor, part: nat -> bool)
    requires WellFormed(t) && AllChars(t, part) && Lexes(c, part)
    requires Compilable(Emit(t, full)) && ReadsBelow(Emit(t, full), |c.code|)
    requires full <= c.code && forall i :: 0 <= i < |full| ==> part(full[i])
    ensures var e := IdentEnd(c.ident, 0, |c.code|);
            |full| <= e && Fails(Emit(t, full), c) == Misses(t, c.code[|full|..e])
    decreases t, 1
  {
    EmitFinds(t, full, c, part);
    var e := IdentEnd(c.ident, 0, |c.code|);
    var code := Emit(t, full);
    var arms := if t.kids == [] then [] else code[|code| - 1..];
    if t.kids != [] {
      assert code[|code| - 1] == Branches(EmitArms(t.kids, full));
      assert arms == [code[|code| - 1]];
      assert ArmsCompilable(EmitArms(t.kids, full)) && ArmsReadBelow(EmitArms(t.kids, full), |c.code|);
      EmitArmsMisses(t.kids, full, c, part);
      assert arms[1..] == [];
    }
    assert Fails(arms, c) == MissesKids(t.kids, c.code[|full|..e]);
    if t.value.Some? {
      assert code[0] == Accept(|full|, t.value.value) && code[1..] == arms;
      assert |full| < |c.code|;
      assert c.ident(|full|) <==> |full| < e;
    } else {
      assert code == arms;
    }
  }

  lemma {:induction false} EmitArmsMisses(kids: seq<Tree>, full: Word, c: Cursor, part: nat -> bool)
    requires forall i :: 0 <= i < |kids| ==> kids[i].prefix != [] && WellFormed(kids[i]) && AllChars(kids[i], part)
    requires Lexes(c, part)
    requires ArmsCompilable(EmitArms(kids, full)) && ArmsReadBelow(EmitArms(kids, full), |c.code|)
    requires full <= c.code && forall i :: 0 <= i < |full| ==> part(full[i])
    requires |full| <= IdentEnd(c.ident, 0, |c.code|)
    ensures FailsArms(EmitArms(kids, full), c) == MissesKids(kids, c.code[|full|..IdentEnd(c.ident, 0, |c.code|)])
    decreases kids, 0
  {
    if kids != [] {
      FirstArm(kids, full, c, part);
      var e := IdentEnd(c.ident, 0, |c.code|);
      var w, k := c.code[|full|..e], kids[0].prefix;
      hide EmitArms, Emit, Lexes, Probe;
      if k <= w {
        EmitMisses(kids[0], full + k, c, part);
      } else {
        EmitArmsMisses(kids[1..], full, c, part);
      }
    }
  }

  /** The first test holds exactly when the first label comes next in the identifier. */
  lemma FirstArm(kids: seq<Tree>, full: Word, c: Cursor, part: nat -> bool)
    requires kids != [] && kids[0].prefix != [] && WellFormed(kids[0]) && AllChars(kids[0], part) && Lexes(c, part)
    requires ArmsCompilable(EmitArms(kids, full)) && ArmsReadBelow(EmitArms(kids, full), |c.code|)
    requires full <= c.code && forall i :: 0 <= i < |full| ==> part(full[i])
    requires |full| <= IdentEnd(c.ident, 0, |c.code|)
    ensures var e := IdentEnd(c.ident, 0, |c.code|);
            var w, k, arms := c.code[|full|..e], kids[0].prefix, EmitArms(kids, full);
            && arms != [] && arms[0].body == Emit(kids[0], full + k) && arms[1..] == EmitArms(kids[1..], full)
            && arms[0].at + |arms[0].chars| <= |c.code| && 1 <= |arms[0].chars| <= 8
            && (KeywordCompare.Compare(c.cpu, c.u, c.code, arms[0].at, arms[0].chars) <==> k <= w)
            && (k <= w ==> full + k <= c.code && w[|k|..] == c.code[|full + k|..e])
            && forall i :: 0 <= i < |full + k| ==> part((full + k)[i])
  {
    var arms, k := EmitArms(kids, full), kids[0].prefix;
    assert arms[0] == Arm(Probe(full, k).0, Probe(full, k).1, Emit(kids[0], full + k)) && arms[1..] == EmitArms(kids[1..], full);
    assert 1 <= |arms[0].chars| <= 8 && arms[0].at + |arms[0].chars| <= |c.code|;
    assert forall i :: 0 <= i < |k| ==> part(k[i]);
    hide EmitArms, Emit, WellFormed, AllChars, ArmsCompilable, ArmsReadBelow;
    ProbeIsLabel(c, part, full, k);
    LabelNext(c, part, full, k);
  }

  /** A label comes next in the buffer exactly when it comes next in the identifier. */
  lemma LabelNext(c: Cursor, part: nat -> bool, full: Word, k: Word)
    requires Lexes(c, part) && full <= c.code && |full| <= IdentEnd(c.ident, 0, |c.code|)
    requires (forall i :: 0 <= i < |full| ==> part(full[i])) && (forall i :: 0 <= i < |k| ==> part(k[i]))
    ensures var e := IdentEnd(c.ident, 0, |c.code|);
            var w := c.code[|full|..e];
            && (full + k <= c.code <==> k <= w) && (k <= w ==> w[|k|..] == c.code[|full + k|..e])
            && forall i :: 0 <= i < |full + k| ==> part((full + k)[i])
  {
    var next, w := full + k, c.code[|full|..IdentEnd(c.ident, 0, |c.code|)];
    if k <= w {
      assert c.code[|full|..|next|] == w[..|k|] == k;
      assert c.code[..|next|] == full + c.code[|full|..|next|];
    }
    if next <= c.code {
      SpeltWithin(c, part, next);
      assert w[..|k|] == c.code[|full|..|next|] == next[|full|..] == k;
    }
  }

  lemma SpeltWithin(c: Cursor, part: nat -> bool, w: Word)
    requires Lexes(c, part) && w <= c.code && forall i :: 0 <= i < |w| ==> part(w[i])
    ensures |w| <= IdentEnd(c.ident, 0, |c.code|)
  {
    assert forall i :: 0 <= i < |w| ==> c.code[i] == w[i] && c.ident(i);
  }

  // ----- The words of a trie

  function Prepended(k: Word, ws: seq<Word>): (r: seq<Word>)
  {
    Image((w: Word) => k + w, ws)
  }

  /** What is spelt at the nodes of `t`, from below its own label on. */
  function Words(t: Tree): (ws: seq<Word>)
    decreases t, 1
  {
    [[]] + WordsBelow(t.kids)
  }

  function WordsBelow(kids: seq<Tree>): (ws: seq<Word>)
    decreases kids, 0
  {
    if kids == [] then [] else Prepended(kids[0].prefix, Words(kids[0])) + WordsBelow(kids[1..])
  }

  /** A product, kept apart from the sums around it. */
  function Times(n: nat, x: real): (r: real)
  {
    n as real * x
  }

  lemma TimesSum(n: nat, x: real, y: real)
    ensures Times(n, x + y) == Times(n, x) + Times(n, y)
  {
  }

  lemma TimesAdd(m: nat, n: nat, x: real)
    ensures Times(m + n, x) == Times(m, x) + Times(n, x)
  {
  }

  /** The failed tests of every word, each as often as the word occurs behind `full`. */
  function Gains(freq: Frequencies, full: Word, t: Tree, ws: seq<Word>): (r: seq<real>)
  {
    Image((w: Word) => Times(Misses(t, w), SelfWeight(freq, full + w)), ws)
  }

  function Expected(freq: Frequencies, full: Word, t: Tree, ws: seq<Word>): (e: real)
  {
    Sum(Gains(freq, full, t, ws))
  }

  /** Nodes without a token try all their labels in vain; no order of siblings changes that. */
  function Extra(freq: Frequencies, t: Tree, full: Word): (e: real)
    decreases t, 1
  {
    (if t.value.Some? then 0.0 else Times(|t.kids|, SelfWeight(freq, full))) + Sum(Extras(freq, t.kids, full))
  }

  function Extras(freq: Frequencies, kids: seq<Tree>, full: Word): (es: seq<real>)
    decreases kids, 0
  {
    seq(|kids|, i requires 0 <= i < |kids| => Extra(freq, kids[i], full + kids[i].prefix))
  }

  lemma {:induction false} SumConcat(a: seq<real>, b: seq<real>)
    ensures Sum(a + b) == Sum(a) + Sum(b)
  {
    if a == [] {
      assert a + b == b;
    } else {
      assert (a + b)[1..] == a[1..] + b;
      SumConcat(a[1..], b);
    }
  }

  lemma {:induction false} MissesEmpty(kids: seq<Tree>)
    ensures MissesKids(kids, []) == |kids|
  {
    if kids != [] {
      MissesEmpty(kids[1..]);
    }
  }

  /** A word behind the label of the `i`th sibling passes over the `i` siblings before it. */
  lemma {:induction false} MissesAt(kids: seq<Tree>, i: nat, w: Word)
    requires Branching(kids) && i < |kids|
    ensures MissesKids(kids, kids[i].prefix + w) == i + Misses(kids[i], w)
  {
    var k := kids[i].prefix;
    if i == 0 {
      assert (k + w)[|k|..] == w;
    } else {
      assert (k + w)[0] == k[0] != kids[0].prefix[0];
      assert forall j :: 0 <= j < |kids[1..]| ==> kids[1..][j] == kids[j + 1];
      MissesAt(kids[1..], i - 1, w);
    }
  }

  // ----- Cost is the expected number of failed tests

  function WordWeights(freq: Frequencies, full: Word, ws: seq<Word>): (r: seq<real>)
  {
    Image((w: Word) => SelfWeight(freq, full + w), ws)
  }

  lemma PrependedWeights(freq: Frequencies, full: Word, k: Word, ws: seq<Word>)
    ensures WordWeights(freq, full, Prepended(k, ws)) == WordWeights(freq, full + k, ws)
  {
    forall i | 0 <= i < |ws| ensures full + (k + ws[i]) == (full + k) + ws[i] {
    }
  }

  lemma WordWeightsConcat(freq: Frequencies, full: Word, a: seq<Word>, b: seq<Word>)
    ensures WordWeights(freq, full, a + b) == WordWeights(freq, full, a) + WordWeights(freq, full, b)
  {
  }

  /** The weight of a subtree is the sum of the frequencies of its words. */
  lemma {:induction false} WeightIsSum(freq: Frequencies, t: Tree, prefix: Word)
    ensures Sum(WordWeights(freq, prefix + t.prefix, Words(t))) == Weight(freq, t, prefix)
    decreases t, 1
  {
    var full := prefix + t.prefix;
    WordWeightsConcat(freq, full, [[]], WordsBelow(t.kids));
    SumConcat(WordWeights(freq, full, [[]]), WordWeights(freq, full, WordsBelow(t.kids)));
    var none: Word := [];
    assert WordWeights(freq, full, [none]) == [SelfWeight(freq, full + none)] && full + none == full;
    WeightsAreSums(freq, t.kids, full);
  }

  lemma {:induction false} WeightsAreSums(freq: Frequencies, kids: seq<Tree>, full: Word)
    ensures Sum(WordWeights(freq, full, WordsBelow(kids))) == Sum(Weights(freq, kids, full))
    decreases kids, 0
  {
    if kids != [] {
      var k := kids[0].prefix;
      WordWeightsConcat(freq, full, Prepended(k, Words(kids[0])), WordsBelow(kids[1..]));
      SumConcat(WordWeights(freq, full, Prepended(k, Words(kids[0]))), WordWeights(freq, full, WordsBelow(kids[1..])));
      PrependedWeights(freq, full, k, Words(kids[0]));
      WeightIsSum(freq, kids[0], full);
      WeightsAreSums(freq, kids[1..], full);
      assert Weights(freq, kids, full)[1..] == Weights(freq, kids[1..], full);
    }
  }

  function Shifted(n: nat, a: seq<real>, b: seq<real>): (r: seq<real>)
    requires |a| == |b|
  {
    seq(|a|, i requires 0 <= i < |a| => Times(n, a[i]) + b[i])
  }

  lemma {:induction false} ShiftedSum(n: nat, a: seq<real>, b: seq<real>)
    requires |a| == |b|
    ensures Sum(Shifted(n, a, b)) == Times(n, Sum(a)) + Sum(b)
  {
    if a == [] {
      assert Times(n, 0.0) == 0.0;
    } else {
      TimesSum(n, a[0], Sum(a[1..]));
      hide Times;
      assert Shifted(n, a, b)[1..] == Shifted(n, a[1..], b[1..]);
      ShiftedSum(n, a[1..], b[1..]);
    }
  }

  lemma OneGain(freq: Frequencies, full: Word, k: Word, t: Tree, i: nat, w: Word)
    requires Branching(t.kids) && i < |t.kids| && k == t.kids[i].prefix
    ensures var x := SelfWeight(freq, (full + k) + w);
            Times(Misses(t, k + w), SelfWeight(freq, full + (k + w))) == Times(i, x) + Times(Misses(t.kids[i], w), x)
  {
    hide Times, SelfWeight;
    MissesAt(t.kids, i, w);
    assert full + (k + w) == (full + k) + w;
    TimesAdd(i, Misses(t.kids[i], w), SelfWeight(freq, (full + k) + w));
  }

  /** The words of the `i`th child: `i` failures each, and those below it. */
  lemma KidExpected(freq: Frequencies, full: Word, t: Tree, i: nat)
    requires Branching(t.kids) && i < |t.kids|
    ensures var kid := t.kids[i];
            Expected(freq, full, t, Prepended(kid.prefix, Words(kid)))
            == Times(i, Weight(freq, kid, full)) + Expected(freq, full + kid.prefix, kid, Words(kid))
  {
    hide Words, Sum, Weight, Times, Misses, SelfWeight;
    var kid := t.kids[i];
    var k, ws := kid.prefix, Words(kid);
    var a, b := WordWeights(freq, full + k, ws), Gains(freq, full + k, kid, ws);
    forall j | 0 <= j < |ws|
      ensures Gains(freq, full, t, Prepended(k, ws))[j] == Times(i, a[j]) + b[j]
    {
      OneGain(freq, full, k, t, i, ws[j]);
    }
    assert Gains(freq, full, t, Prepended(k, ws)) == Shifted(i, a, b);
    ShiftedSum(i, a, b);
    WeightIsSum(freq, kid, full);
  }

  lemma GainsConcat(freq: Frequencies, full: Word, t: Tree, a: seq<Word>, b: seq<Word>)
    ensures Expected(freq, full, t, a + b) == Expected(freq, full, t, a) + Expected(freq, full, t, b)
  {
    hide Sum, Misses, SelfWeight;
    assert Gains(freq, full, t, a + b) == Gains(freq, full, t, a) + Gains(freq, full, t, b);
    SumConcat(Gains(freq, full, t, a), Gains(freq, full, t, b));
  }

  /** The node's own word: nothing fails if it is stored, every label otherwise. */
  lemma OwnExpected(freq: Frequencies, full: Word, t: Tree)
    ensures Expected(freq, full, t, [[]]) == if t.value.Some? then 0.0 else Times(|t.kids|, SelfWeight(freq, full))
  {
    var none: Word := [];
    MissesEmpty(t.kids);
    assert full + none == full;
    assert Times(0, SelfWeight(freq, full)) == 0.0;
    hide Times, SelfWeight;
    var x := Times(Misses(t, none), SelfWeight(freq, full));
    assert Gains(freq, full, t, [none]) == [x];
    assert [x][1..] == [] && Sum([x]) == x;
  }

  lemma OneMoreKid(freq: Frequencies, kids: seq<Tree>, full: Word, j: nat)
    requires kids != []
    ensures Failures(Weights(freq, kids, full), j) == Times(j, Weight(freq, kids[0], full)) + Failures(Weights(freq, kids[1..], full), j + 1)
    ensures Sum(Costs(freq, kids, full)) == Cost(freq, kids[0], full) + Sum(Costs(freq, kids[1..], full))
    ensures Sum(Extras(freq, kids, full)) == Extra(freq, kids[0], full + kids[0].prefix) + Sum(Extras(freq, kids[1..], full))
  {
    hide Weight, Cost, Extra;
    assert Weights(freq, kids, full)[1..] == Weights(freq, kids[1..], full);
    assert Costs(freq, kids, full)[1..] == Costs(freq, kids[1..], full);
    assert Extras(freq, kids, full)[1..] == Extras(freq, kids[1..], full);
  }

  /** Cost is the expected number of failed tests, but for those no order avoids. */
  lemma {:induction false} ExpectedIsCost(freq: Frequencies, t: Tree, prefix: Word)
    requires WellFormed(t)
    ensures Expected(freq, prefix + t.prefix, t, Words(t)) == Cost(freq, t, prefix) + Extra(freq, t, prefix + t.prefix)
    decreases t, 1
  {
    var full := prefix + t.prefix;
    GainsConcat(freq, full, t, [[]], WordsBelow(t.kids));
    OwnExpected(freq, full, t);
    hide Expected, Failures, Sum, SelfWeight, Weights, WordsBelow;
    forall i | 0 <= i < |t.kids| ensures Settled(freq, full, t.kids[i]) {
      ExpectedIsCost(freq, t.kids[i], full);
    }
    BelowExpected(freq, full, t, 0);
    assert t.kids[0..] == t.kids;
  }

  ghost predicate Settled(freq: Frequencies, full: Word, kid: Tree)
  {
    Expected(freq, full + kid.prefix, kid, Words(kid)) == Cost(freq, kid, full) + Extra(freq, kid, full + kid.prefix)
  }

  lemma {:induction false} BelowExpected(freq: Frequencies, full: Word, t: Tree, j: nat)
    requires Branching(t.kids) && j <= |t.kids| && forall i :: 0 <= i < |t.kids| ==> Settled(freq, full, t.kids[i])
    ensures var kids := t.kids[j..];
            Expected(freq, full, t, WordsBelow(kids))
            == Failures(Weights(freq, kids, full), j) + Sum(Costs(freq, kids, full)) + Sum(Extras(freq, kids, full))
    decreases |t.kids| - j
  {
    var kids := t.kids[j..];
    if j < |t.kids| {
      hide Weight, Cost, Extra, Words, Misses, Times, Failures, Sum, Expected, Costs, Extras, Weights;
      Slices(t.kids, j);
      assert WordsBelow(kids) == Prepended(kids[0].prefix, Words(kids[0])) + WordsBelow(kids[1..]);
      GainsConcat(freq, full, t, Prepended(kids[0].prefix, Words(kids[0])), WordsBelow(kids[1..]));
      KidExpected(freq, full, t, j);
      BelowExpected(freq, full, t, j + 1);
      OneMoreKid(freq, kids, full, j);
    }
  }

  // ----- Orders of siblings

  lemma {:induction false} BelowWithout(kids: seq<Tree>, j: nat)
    requires j < |kids|
    ensures multiset(WordsBelow(kids)) == multiset(Prepended(kids[j].prefix, Words(kids[j]))) + multiset(WordsBelow(Without(kids, j)))
  {
    hide Words, Prepended;
    var rest := Without(kids, j);
    if j == 0 {
      assert rest == kids[1..];
    } else {
      assert rest[0] == kids[0] && rest[1..] == Without(kids[1..], j - 1) && kids[1..][j - 1] == kids[j];
      BelowWithout(kids[1..], j - 1);
    }
  }

  lemma {:induction false} BelowPermutes(a: seq<Tree>, b: seq<Tree>)
    requires multiset(a) == multiset(b)
    ensures multiset(WordsBelow(a)) == multiset(WordsBelow(b))
  {
    hide Words, Prepended;
    assert |a| == |multiset(a)| == |b|;
    if a != [] {
      var j := Locate(a, b, 0);
      WithoutMultiset(a, b, j);
      BelowWithout(b, j);
      BelowPermutes(a[1..], Without(b, j));
    }
  }

  lemma {:induction false} BelowAlike(a: seq<Tree>, b: seq<Tree>)
    requires |a| == |b|
    requires forall i :: 0 <= i < |a| ==> a[i].prefix == b[i].prefix && multiset(Words(a[i])) == multiset(Words(b[i]))
    ensures multiset(WordsBelow(a)) == multiset(WordsBelow(b))
  {
    hide Words;
    if a != [] {
      BelowAlike(a[1..], b[1..]);
      var k := a[0].prefix;
      ImagePermutes((w: Word) => k + w, Words(a[0]), Words(b[0]));
      assert Prepended(k, Words(a[0])) == Image((w: Word) => k + w, Words(a[0]));
      assert Prepended(k, Words(b[0])) == Image((w: Word) => k + w, Words(b[0]));
    }
  }

  /** Rearranging siblings rearranges the words. */
  lemma {:induction false} ReorderedWords(t: Tree, u: Tree)
    requires Reordered(t, u)
    ensures multiset(Words(t)) == multiset(Words(u))
    decreases t
  {
    var mid: seq<Tree> :| Rearranged(t, mid, u);
    forall i | 0 <= i < |mid| ensures t.kids[i].prefix == mid[i].prefix && multiset(Words(t.kids[i])) == multiset(Words(mid[i])) {
      ReorderedWords(t.kids[i], mid[i]);
    }
    BelowAlike(t.kids, mid);
    BelowPermutes(mid, u.kids);
  }

  lemma {:induction false} ReorderedExtra(freq: Frequencies, t: Tree, u: Tree, full: Word)
    requires Reordered(t, u)
    ensures Extra(freq, t, full) == Extra(freq, u, full)
    decreases t
  {
    var mid: seq<Tree> :| Rearranged(t, mid, u);
    forall i | 0 <= i < |mid|
      ensures Extra(freq, t.kids[i], full + t.kids[i].prefix) == Extra(freq, mid[i], full + mid[i].prefix)
    {
      ReorderedExtra(freq, t.kids[i], mid[i], full + mid[i].prefix);
    }
    assert |t.kids| == |multiset(mid)| == |u.kids|;
    ExtrasPermute(freq, t.kids, mid, u.kids, full);
  }

  lemma ExtrasPermute(freq: Frequencies, kids: seq<Tree>, mid: seq<Tree>, order: seq<Tree>, full: Word)
    requires |mid| == |kids| && multiset(mid) == multiset(order)
    requires forall i :: 0 <= i < |mid| ==> Extra(freq, kids[i], full + kids[i].prefix) == Extra(freq, mid[i], full + mid[i].prefix)
    ensures Sum(Extras(freq, kids, full)) == Sum(Extras(freq, order, full))
  {
    hide Extra, Sum;
    var f := (k: Tree) => Extra(freq, k, full + k.prefix);
    ImagePermutes(f, mid, order);
    assert Extras(freq, order, full) == Image(f, order);
    assert Extras(freq, kids, full) == Image(f, mid);
    SumPermutes(Image(f, mid), Image(f, order));
  }

  lemma ExpectedPermutes(freq: Frequencies, full: Word, t: Tree, a: seq<Word>, b: seq<Word>)
    requires multiset(a) == multiset(b)
    ensures Expected(freq, full, t, a) == Expected(freq, full, t, b)
  {
    hide Sum, Times, Misses, SelfWeight;
    var f := (w: Word) => Times(Misses(t, w), SelfWeight(freq, full + w));
    ImagePermutes(f, a, b);
    assert Gains(freq, full, t, a) == Image(f, a) && Gains(freq, full, t, b) == Image(f, b);
    SumPermutes(Image(f, a), Image(f, b));
  }

  /** Over the words of the trie, the order fillOut chooses misses least often. */
  lemma FillOutMissesLeast(freq: Frequencies, t: Tree, u: Tree)
    requires WellFormed(t) && Reordered(t, u) && t.prefix == []
    ensures Expected(freq, [], FillOut(freq, t, []), Words(t)) <= Expected(freq, [], u, Words(t))
  {
    hide Expected, Cost, Extra, Words, WellFormed, Reordered;
    var g := FillOut(freq, t, []);
    FillOutReorders(freq, t, []);
    OrderExpected(freq, t, g);
    OrderExpected(freq, t, u);
    FillOutIsCheapest(freq, t, u, []);
  }

  lemma OrderExpected(freq: Frequencies, t: Tree, u: Tree)
    requires WellFormed(t) && Reordered(t, u) && t.prefix == []
    ensures Expected(freq, [], u, Words(t)) == Cost(freq, u, []) + Extra(freq, t, [])
  {
    ReorderedShape(t, u);
    ReorderedWords(t, u);
    ReorderedExtra(freq, t, u, []);
    ExpectedPermutes(freq, [], u, Words(t), Words(u));
    ExpectedIsCost(freq, u, []);
    var none: Word := [];
    assert none + u.prefix == none;
  }

  // ----- The emitted code

  /** The buffer holds the word as its whole identifier. */
  ghost predicate Spells(c: Cursor, w: Word, part: nat -> bool)
  {
    Lexes(c, part) && w <= c.code && IdentEnd(c.ident, 0, |c.code|) == |w|
  }

  /** Each word has a buffer that spells it, long enough for the code of the trie. */
  ghost predicate Spelt(t: Tree, ws: seq<Word>, spell: Word -> Cursor, part: nat -> bool)
  {
    && Compilable(Emit(t, []))
    && forall i :: 0 <= i < |ws| ==> Spells(spell(ws[i]), ws[i], part) && ReadsBelow(Emit(t, []), |spell(ws[i]).code|)
  }

  /** The failed tests of the code over the words, each on a buffer that spells it and as often as it occurs. */
  ghost function Spent(freq: Frequencies, code: seq<Stmt>, ws: seq<Word>, spell: Word -> Cursor): (r: real)
    requires Compilable(code) && forall i :: 0 <= i < |ws| ==> ReadsBelow(code, |spell(ws[i]).code|)
  {
    Sum(seq(|ws|, i requires 0 <= i < |ws| => Times(Fails(code, spell(ws[i])), SelfWeight(freq, ws[i]))))
  }

  lemma SpentIsExpected(freq: Frequencies, t: Tree, ws: seq<Word>, spell: Word -> Cursor, part: nat -> bool)
    requires WellFormed(t) && AllChars(t, part) && Spelt(t, ws, spell, part)
    ensures Spent(freq, Emit(t, []), ws, spell) == Expected(freq, [], t, ws)
  {
    var code := Emit(t, []);
    forall i | 0 <= i < |ws| ensures Fails(code, spell(ws[i])) == Misses(t, ws[i]) {
      var c := spell(ws[i]);
      EmitMisses(t, [], c, part);
      assert c.code[0..|ws[i]|] == ws[i];
    }
    hide Fails, Misses, Emit, Times, SelfWeight, Sum, Spells, ReadsBelow, Compilable;
    var none: Word := [];
    assert forall i :: 0 <= i < |ws| ==> none + ws[i] == ws[i];
    assert Gains(freq, none, t, ws)
        == seq(|ws|, i requires 0 <= i < |ws| => Times(Fails(code, spell(ws[i])), SelfWeight(freq, ws[i])));
  }

  lemma GeneratedOrder(table: Table, freq: Frequencies, part: nat -> bool)
    requires TableChars(table, part)
    ensures var t := CoalesceSelf(Build(table));
            WellFormed(t) && AllChars(t, part) && t.prefix == []
            && Generate(table, freq) == FillOut(freq, t, []) && Reordered(t, Generate(table, freq))
  {
    var t := CoalesceSelf(Build(table));
    CompressedTrie(table, part, []);
    FillOutReorders(freq, t, []);
  }

  /** The generated parser fails fewest tests over the words of its trie, against every other order of siblings. */
  lemma FewestFailures(table: Table, freq: Frequencies, u: Tree, spell: Word -> Cursor, part: nat -> bool)
    requires TableChars(table, part) && Reordered(CoalesceSelf(Build(table)), u)
    requires var ws := Words(CoalesceSelf(Build(table)));
             Spelt(Generate(table, freq), ws, spell, part) && Spelt(u, ws, spell, part)
    ensures var ws := Words(CoalesceSelf(Build(table)));
            Spent(freq, Emit(Generate(table, freq), []), ws, spell) <= Spent(freq, Emit(u, []), ws, spell)
  {
    hide Spent, Expected, Emit, Spelt, Words, WellFormed, Reordered, AllChars, CoalesceSelf, Build;
    hide Generate, FillOut, TableChars;
    var t, g := CoalesceSelf(Build(table)), Generate(table, freq);
    GeneratedOrder(table, freq, part);
    ReorderedShape(t, g);
    ReorderedShape(t, u);
    ReorderedChars(t, g, part);
    ReorderedChars(t, u, part);
    SpentIsExpected(freq, g, Words(t), spell, part);
    SpentIsExpected(freq, u, Words(t), spell, part);
    FillOutMissesLeast(freq, t, u);
  }
}
