/**
 The decision tree KeywordLookupGenerator.py prints for a trie, what running
 it does, and its agreement with the keyword table.
 */
module KeywordEmit {
  import opened Wrappers
  import opened KeywordTrie
  import opened KeywordCompare
  import opened SiblingOrder

  // ----- The emitted code

  datatype Stmt =
    | Accept(end: nat, token: string)  // if (!isIdentPartIncludingEscape(code+end, ...)) { shift by end; return token; }
    | Branches(arms: seq<Arm>)         // if (...) { ... } else if (...) { ... }

  /** One `if (COMPARE_n(code + at, chars))` with its block. */
  datatype Arm = Arm(at: nat, chars: Word, body: seq<Stmt>)

  /** What parseKeyword does: `Return` shifts past the keyword, `Ident` is the final `return IDENT`. */
  datatype Outcome = Ident | Return(token: string, shift: nat)

  /** Where and what the test for the child labelled `k` compares; a three-character label borrows the character before it. */
  function Probe(full: Word, k: Word): (p: (nat, Word))
  {
    if |full| > 0 && |k| == 3 then (|full| - 1, [(full + k)[|full| - 1]] + k) else (|full|, k)
  }

  /** The block for a node whose path spells `full`. */
  function Emit(t: Tree, full: Word): (code: seq<Stmt>)
    decreases t, 1
  {
    (if t.value.Some? then [Accept(|full|, t.value.value)] else [])
    + (if t.kids == [] then [] else [Branches(EmitArms(t.kids, full))])
  }

  function EmitArms(kids: seq<Tree>, full: Word): (arms: seq<Arm>)
    ensures |arms| == |kids|
    decreases kids, 0
  {
    if kids == [] then []
    else
      var p := Probe(full, kids[0].prefix);
      [Arm(p.0, p.1, Emit(kids[0], full + kids[0].prefix))] + EmitArms(kids[1..], full)
  }

  /** The longest path below a node, `full` included; the lexer reserves one more than the root's. */
  function MaxLength(t: Tree, full: Word): (n: nat)
    decreases t, 1
  {
    Max(|full|, MaxLengths(t.kids, full))
  }

  function MaxLengths(kids: seq<Tree>, full: Word): (n: nat)
    decreases kids, 0
  {
    if kids == [] then 0 else Max(MaxLength(kids[0], full + kids[0].prefix), MaxLengths(kids[1..], full))
  }

  function Max(a: nat, b: nat): nat { if a < b then b else a }

  // ----- Running it

  /** Every test has a macro: one to eight characters. */
  predicate Compilable(code: seq<Stmt>)
    decreases code, 1
  {
    forall i :: 0 <= i < |code| && code[i].Branches? ==> ArmsCompilable(code[i].arms)
  }

  predicate ArmsCompilable(arms: seq<Arm>)
    decreases arms, 0
  {
    forall i :: 0 <= i < |arms| ==> 1 <= |arms[i].chars| <= 8 && Compilable(arms[i].body)
  }

  /** No statement reads an index at or beyond `n`. */
  predicate ReadsBelow(code: seq<Stmt>, n: nat)
    decreases code, 1
  {
    forall i :: 0 <= i < |code| ==>
      match code[i]
      case Accept(end, _) => end < n
      case Branches(arms) => ArmsReadBelow(arms, n)
  }

  predicate ArmsReadBelow(arms: seq<Arm>, n: nat)
    decreases arms, 0
  {
    forall i :: 0 <= i < |arms| ==> arms[i].at + |arms[i].chars| <= n && ReadsBelow(arms[i].body, n)
  }

  /** The lexer state at the cursor: the buffer from there on, and isIdentPartIncludingEscape at each offset. */
  datatype Cursor = Cursor(cpu: Cpu, u: Unit, code: Word, ident: nat -> bool)

  function Run(code: seq<Stmt>, c: Cursor): (r: Outcome)
    requires Compilable(code) && ReadsBelow(code, |c.code|)
    decreases code, 1
  {
    if code == [] then Ident
    else
      var r := match code[0]
        case Accept(end, token) => if c.ident(end) then Ident else Return(token, end)
        case Branches(arms) => RunArms(arms, c);
      if r.Return? then r else Run(code[1..], c)
  }

  /** The first test that holds decides: control never comes back to a later arm. */
  function RunArms(arms: seq<Arm>, c: Cursor): (r: Outcome)
    requires ArmsCompilable(arms) && ArmsReadBelow(arms, |c.code|)
    decreases arms, 0
  {
    if arms == [] then Ident
    else if Compare(c.cpu, c.u, c.code, arms[0].at, arms[0].chars) then Run(arms[0].body, c)
    else RunArms(arms[1..], c)
  }

  // ----- The read bound

  lemma {:induction false} MaxLengthsBounds(kids: seq<Tree>, full: Word, i: nat)
    requires i < |kids|
    ensures MaxLength(kids[i], full + kids[i].prefix) <= MaxLengths(kids, full)
  {
    if i > 0 {
      MaxLengthsBounds(kids[1..], full, i - 1);
    }
  }

  lemma {:induction false} EmitArmsAt(kids: seq<Tree>, full: Word, i: nat)
    requires i < |kids|
    ensures var p := Probe(full, kids[i].prefix);
            EmitArms(kids, full)[i] == Arm(p.0, p.1, Emit(kids[i], full + kids[i].prefix))
  {
    if i > 0 {
      EmitArmsAt(kids[1..], full, i - 1);
    }
  }

  lemma {:induction false} EmitArmsSnoc(kids: seq<Tree>, i: nat, full: Word)
    requires i < |kids|
    ensures var p := Probe(full, kids[i].prefix);
            EmitArms(kids[..i + 1], full)
            == EmitArms(kids[..i], full) + [Arm(p.0, p.1, Emit(kids[i], full + kids[i].prefix))]
  {
    if i > 0 {
      EmitArmsSnoc(kids[1..], i - 1, full);
      assert kids[1..][..i] == kids[..i + 1][1..] && kids[1..][..i - 1] == kids[..i][1..];
    } else {
      assert kids[..1][1..] == [];
    }
  }

  lemma {:induction false} MaxLengthsSnoc(kids: seq<Tree>, i: nat, full: Word)
    requires i < |kids|
    ensures MaxLengths(kids[..i + 1], full)
            == Max(MaxLengths(kids[..i], full), MaxLength(kids[i], full + kids[i].prefix))
  {
    if i > 0 {
      MaxLengthsSnoc(kids[1..], i - 1, full);
      assert kids[1..][..i] == kids[..i + 1][1..] && kids[1..][..i - 1] == kids[..i][1..];
    } else {
      assert kids[..1][1..] == [];
    }
  }

  /** The reserved length covers every read. */
  lemma {:induction false} ReservedLengthSuffices(t: Tree, full: Word, n: nat)
    requires n > MaxLength(t, full)
    ensures ReadsBelow(Emit(t, full), n)
    decreases t
  {
    var arms := EmitArms(t.kids, full);
    forall i | 0 <= i < |arms| ensures arms[i].at + |arms[i].chars| <= n && ReadsBelow(arms[i].body, n) {
      EmitArmsAt(t.kids, full, i);
      MaxLengthsBounds(t.kids, full, i);
      ReservedLengthSuffices(t.kids[i], full + t.kids[i].prefix, n);
    }
  }

  /** And no smaller length does: the end of a longest keyword is read. */
  lemma {:induction false} ReservedLengthNeeded(t: Tree, full: Word, n: nat)
    requires Live(t) && (t.value.Some? || t.kids != []) && ReadsBelow(Emit(t, full), n)
    ensures n > MaxLength(t, full)
    decreases t, 1
  {
    var code := Emit(t, full);
    if t.value.Some? {
      assert code[0] == Accept(|full|, t.value.value);
    }
    if t.kids != [] {
      assert code[|code| - 1] == Branches(EmitArms(t.kids, full));
      ReservedLengthsNeeded(t.kids, full, n);
    }
  }

  lemma {:induction false} ReservedLengthsNeeded(kids: seq<Tree>, full: Word, n: nat)
    requires forall i :: 0 <= i < |kids| ==> Live(kids[i]) && (kids[i].value.Some? || kids[i].kids != [])
    requires kids != [] && ArmsReadBelow(EmitArms(kids, full), n)
    ensures n > MaxLengths(kids, full) && n > |full|
    decreases kids, 0
  {
    var arms := EmitArms(kids, full);
    assert ReadsBelow(arms[0].body, n);
    ReservedLengthNeeded(kids[0], full + kids[0].prefix, n);
    if |kids| > 1 {
      assert arms[1..] == EmitArms(kids[1..], full);
      assert forall i :: 0 <= i < |kids| - 1 ==> kids[1..][i] == kids[i + 1];
      ReservedLengthsNeeded(kids[1..], full, n);
    }
  }

  /** Every label below a node has one to eight characters. */
  predicate ShortLabels(t: Tree)
  {
    forall i :: 0 <= i < |t.kids| ==> 1 <= |t.kids[i].prefix| <= 8 && ShortLabels(t.kids[i])
  }

  /** The code has a macro for each of its tests exactly when the labels are short; widening never gets in the way. */
  lemma {:induction false} CompilableIff(t: Tree, full: Word)
    ensures Compilable(Emit(t, full)) <==> ShortLabels(t)
  {
    CompilableNode(t, full);
    hide Compilable, Emit, EmitArms;
    forall i | 0 <= i < |t.kids| ensures Compilable(Emit(t.kids[i], full + t.kids[i].prefix)) <==> ShortLabels(t.kids[i]) {
      CompilableIff(t.kids[i], full + t.kids[i].prefix);
    }
  }

  lemma CompilableNode(t: Tree, full: Word)
    ensures Compilable(Emit(t, full)) <==>
            forall i :: 0 <= i < |t.kids| ==> 1 <= |t.kids[i].prefix| <= 8 && Compilable(Emit(t.kids[i], full + t.kids[i].prefix))
  {
    var code, arms := Emit(t, full), EmitArms(t.kids, full);
    assert Compilable(code) <==> ArmsCompilable(arms) by {
      hide EmitArms, ArmsCompilable;
      if t.kids == [] {
        NoArms(full);
      } else {
        assert code[|code| - 1] == Branches(arms);
      }
    }
    hide Compilable, Emit, EmitArms;
    forall i | 0 <= i < |t.kids|
      ensures arms[i].body == Emit(t.kids[i], full + t.kids[i].prefix)
      ensures 1 <= |arms[i].chars| <= 8 <==> 1 <= |t.kids[i].prefix| <= 8
    {
      EmitArmsAt(t.kids, full, i);
    }
  }

  lemma NoArms(full: Word)
    ensures ArmsCompilable(EmitArms([], full))
  {
  }

  // ----- Agreement with lookup in the trie

  /** Length of the run of identifier characters at the cursor, within the buffer. */
  function IdentEnd(ident: nat -> bool, from: nat, n: nat): (e: nat)
    requires from <= n
    ensures from <= e <= n && (e < n ==> !ident(e)) && forall i :: from <= i < e ==> ident(i)
    decreases n - from
  {
    if from == n || !ident(from) then from else IdentEnd(ident, from + 1, n)
  }

  function Lift(found: Option<string>, e: nat): (r: Outcome)
  {
    if found.Some? then Return(found.value, e) else Ident
  }

  /** Every character `part` accepts fits the buffer's width and continues an identifier there. */
  ghost predicate Lexes(c: Cursor, part: nat -> bool)
  {
    && Fits(c.u, c.code)
    && (forall x: nat :: part(x) ==> x < c.u.Limit())
    && (forall i :: 0 <= i < |c.code| && part(c.code[i]) ==> c.ident(i))
  }

  /** Matching what a probe covers is matching the label after `full`. */
  lemma ProbeCovers(code: Word, full: Word, k: Word)
    requires full <= code && |full| + |k| <= |code|
    ensures var p := Probe(full, k);
            p.0 + |p.1| == |full| + |k| && (code[p.0..p.0 + |p.1|] == p.1 <==> full + k <= code)
  {
    var n, p := |full|, Probe(full, k);
    assert code[..n + |k|] == full + code[n..n + |k|];
    assert full + k <= code <==> code[n..n + |k|] == k;
    if p.0 < n {
      assert code[n - 1..n + |k|] == [full[n - 1]] + code[n..n + |k|];
      assert code[n..n + |k|] == code[n - 1..n + |k|][1..] && k == p.1[1..];
    }
  }

  /** Widened or not, the emitted test for a label holds exactly when the label comes next. */
  lemma ProbeIsLabel(c: Cursor, part: nat -> bool, full: Word, k: Word)
    requires Lexes(c, part) && full <= c.code && k != []
    requires forall i :: 0 <= i < |full| ==> part(full[i])
    requires forall i :: 0 <= i < |k| ==> part(k[i])
    requires var p := Probe(full, k); 1 <= |p.1| <= 8 && p.0 + |p.1| <= |c.code|
    ensures var p := Probe(full, k); Compare(c.cpu, c.u, c.code, p.0, p.1) <==> full + k <= c.code
  {
    var p := Probe(full, k);
    assert Fits(c.u, p.1);
    CompareIsEqual(c.cpu, c.u, c.code, p.0, p.1);
    ProbeCovers(c.code, full, k);
  }

  /** Running the block of a node finds the token its trie stores for the rest of the identifier. */
  lemma {:induction false} EmitFinds(t: Tree, full: Word, c: Cursor, part: nat -> bool)
    requires WellFormed(t) && AllChars(t, part) && Lexes(c, part)
    requires Compilable(Emit(t, full)) && ReadsBelow(Emit(t, full), |c.code|)
    requires full <= c.code && forall i :: 0 <= i < |full| ==> part(full[i])
    ensures var e := IdentEnd(c.ident, 0, |c.code|);
            |full| <= e && Run(Emit(t, full), c) == Lift(Find(t, c.code[|full|..e]), e)
    decreases t, 1
  {
    var e := IdentEnd(c.ident, 0, |c.code|);
    assert forall i :: 0 <= i < |full| ==> c.code[i] == full[i] && c.ident(i);
    assert |full| <= e;
    var code := Emit(t, full);
    var arms := if t.kids == [] then [] else code[|code| - 1..];
    if t.kids != [] {
      assert code[|code| - 1] == Branches(EmitArms(t.kids, full));
      assert arms == [code[|code| - 1]];
      assert ArmsCompilable(EmitArms(t.kids, full)) && ArmsReadBelow(EmitArms(t.kids, full), |c.code|);
      EmitArmsFind(t.kids, full, c, part);
      assert arms[1..] == [];
    }
    assert Run(arms, c) == Lift(FindKids(t.kids, c.code[|full|..e]), e);
    if t.value.Some? {
      assert code[0] == Accept(|full|, t.value.value) && code[1..] == arms;
      assert |full| < |c.code|;
      assert c.ident(|full|) <==> |full| < e;
    } else {
      assert code == arms;
    }
    FindKidsEmpty(t.kids);
  }

  lemma {:induction false} FindKidsEmpty(kids: seq<Tree>)
    ensures FindKids(kids, []) == None
  {
    if kids != [] {
      FindKidsEmpty(kids[1..]);
    }
  }

  lemma {:induction false} EmitArmsFind(kids: seq<Tree>, full: Word, c: Cursor, part: nat -> bool)
    requires forall i :: 0 <= i < |kids| ==> kids[i].prefix != [] && WellFormed(kids[i]) && AllChars(kids[i], part)
    requires Lexes(c, part)
    requires ArmsCompilable(EmitArms(kids, full)) && ArmsReadBelow(EmitArms(kids, full), |c.code|)
    requires full <= c.code && forall i :: 0 <= i < |full| ==> part(full[i])
    requires |full| <= IdentEnd(c.ident, 0, |c.code|)
    ensures var e := IdentEnd(c.ident, 0, |c.code|);
            RunArms(EmitArms(kids, full), c) == Lift(FindKids(kids, c.code[|full|..e]), e)
    decreases kids, 0
  {
    if kids != [] {
      var e := IdentEnd(c.ident, 0, |c.code|);
      var w := c.code[|full|..e];
      var arms := EmitArms(kids, full);
      var k := kids[0].prefix;
      var next := full + k;
      assert arms[0] == Arm(Probe(full, k).0, Probe(full, k).1, Emit(kids[0], next));
      ProbeIsLabel(c, part, full, k);
      assert k <= w ==> next <= c.code by {
        assert k <= w ==> c.code[|full|..|next|] == k && |next| <= |c.code|;
        assert |next| <= |c.code| ==> c.code[..|next|] == full + c.code[|full|..|next|];
      }
      if next <= c.code {
        assert Compilable(arms[0].body) && ReadsBelow(arms[0].body, |c.code|);
        EmitFinds(kids[0], next, c, part);
        assert k <= w by { assert c.code[|full|..|next|] == next[|full|..] == k; }
        assert w[|k|..] == c.code[|next|..e];
      } else {
        assert arms[1..] == EmitArms(kids[1..], full);
        EmitArmsFind(kids[1..], full, c, part);
      }
    }
  }

  // ----- The generator as a whole

  /** insert every row, coalesce, fillOut: the trie that is printed. */
  function Generate(table: Table, freq: Frequencies): (t: Tree)
  {
    FillOut(freq, CoalesceSelf(Build(table)), [])
  }

  ghost predicate TableChars(table: Table, part: nat -> bool)
  {
    forall i, j :: 0 <= i < |table| && 0 <= j < |table[i].0| ==> part(table[i].0[j])
  }

  /** The specification: the longest identifier at the cursor is a keyword, or it is not. */
  function Spec(table: Table, c: Cursor): (r: Outcome)
  {
    var e := IdentEnd(c.ident, 0, |c.code|);
    Lift(Get(Meaning(table), c.code[..e]), e)
  }

  /** The compressed trie stores the table, has keyword characters only, and is well formed. */
  lemma CompressedTrie(table: Table, part: nat -> bool, w: Word)
    requires TableChars(table, part)
    ensures var t := CoalesceSelf(Build(table));
            t.prefix == [] && WellFormed(t) && AllChars(t, part) && Find(t, w) == Get(Meaning(table), w)
  {
    var raw := Build(table);
    BuildMeaning(table, w);
    RawIsWellFormed(raw);
    BuildChars(table, part);
    CoalesceShape(raw);
    CoalesceChars(raw, part);
    CoalesceFind(raw, w);
  }

  /** Whatever order siblings are printed in, the parser answers as the specification does. */
  lemma AnyOrderIsCorrect(table: Table, u: Tree, c: Cursor, part: nat -> bool)
    requires TableChars(table, part) && Lexes(c, part)
    requires Reordered(CoalesceSelf(Build(table)), u)
    requires Compilable(Emit(u, [])) && |c.code| > MaxLength(u, [])
    ensures ReadsBelow(Emit(u, []), |c.code|)
    ensures Run(Emit(u, []), c) == Spec(table, c)
  {
    var t := CoalesceSelf(Build(table));
    var e := IdentEnd(c.ident, 0, |c.code|);
    CompressedTrie(table, part, c.code[..e]);
    ReorderedShape(t, u);
    ReorderedChars(t, u, part);
    ReorderedFind(t, u, c.code[..e]);
    ReservedLengthSuffices(u, [], |c.code|);
    EmitFinds(u, [], c, part);
    assert c.code[0..e] == c.code[..e];
  }

  /** maxTokenLength is exact: a buffer is long enough for every read if and only if it has that many characters. */
  lemma ReservedLengthIsExact(table: Table, freq: Frequencies, n: nat)
    requires table != []
    ensures ReadsBelow(Emit(Generate(table, freq), []), n) <==> n >= MaxLength(Generate(table, freq), []) + 1
  {
    var raw := Build(table);
    var t := CoalesceSelf(raw);
    var u := Generate(table, freq);
    BuildMeaning(table, []);
    RawIsWellFormed(raw);
    InsertLeavesSomething(table);
    CoalesceSelfMaps(raw);
    CoalesceCompresses(raw);
    CompressedIsLive(t);
    FillOutReorders(freq, t, []);
    ReorderedLive(t, u);
    if n > MaxLength(u, []) {
      ReservedLengthSuffices(u, [], n);
    }
    if ReadsBelow(Emit(u, []), n) {
      ReservedLengthNeeded(u, [], n);
    }
  }

  /** The generated parser recognises exactly the table, on every buffer of at least maxTokenLength characters. */
  lemma GeneratedParserIsCorrect(table: Table, freq: Frequencies, c: Cursor, part: nat -> bool)
    requires TableChars(table, part) && Lexes(c, part)
    requires Compilable(Emit(Generate(table, freq), [])) && |c.code| >= MaxLength(Generate(table, freq), []) + 1
    ensures ReadsBelow(Emit(Generate(table, freq), []), |c.code|)
    ensures Run(Emit(Generate(table, freq), []), c) == Spec(table, c)
  {
    FillOutReorders(freq, CoalesceSelf(Build(table)), []);
    AnyOrderIsCorrect(table, Generate(table, freq), c, part);
  }
}
