/**
 * Static functions of callback objects. A function object is made when its name is first read and is
 * kept in the object's own property storage; the storage also holds the values that scripts put over it.
 */
module StaticFunctions {
  import opened Wrappers

  /** A row of a class's table of static functions; the callback may be null. */
  datatype Entry = Entry(callable: bool, readOnly: bool)

  /** The tables of a class and its parents, nearest first. */
  type Chain = seq<map<string, Entry>>

  /** Values, over the identities `F` of function objects. */
  datatype Value<F> = Undefined | Number(n: int) | Function(f: F)

  datatype Slot<F> = Slot(value: Value<F>, readOnly: bool)

  type Storage<F> = map<string, Slot<F>>

  datatype Outcome<F> =
    | Got(value: Value<F>)
    | Missing
    | ReferenceError
    | Stored
    | Refused
    | TypeError

  // ----- Ordinary objects (sections 9.1.8 and 9.1.9 of ECMA-262)

  function OrdinaryGet<F>(own: Storage<F>, name: string): (o: Outcome<F>)
  {
    if name in own then Got(own[name].value) else Missing
  }

  function OrdinaryPut<F>(own: Storage<F>, name: string, v: Value<F>, strict: bool): (r: (Storage<F>, Outcome<F>))
  {
    if name in own then
      if own[name].readOnly then (own, if strict then TypeError else Refused)
      else (own[name := Slot(v, false)], Stored)
    else (own[name := Slot(v, false)], Stored)
  }

  // ----- The callback object

  /** The first table that lists a name, and the first that lists it with a callback. */
  function FirstEntry(chain: Chain, name: string): (e: Option<Entry>)
  {
    if chain == [] then None
    else if name in chain[0] then Some(chain[0][name])
    else FirstEntry(chain[1..], name)
  }

  function FirstCallable(chain: Chain, name: string): (e: Option<Entry>)
  {
    if chain == [] then None
    else if name in chain[0] && chain[0][name].callable then Some(chain[0][name])
    else FirstCallable(chain[1..], name)
  }

  /** The own properties, and the names of the function objects made so far: function `i` is made[i]. */
  datatype State = State(own: Storage<nat>, made: seq<string>)

  function Get(chain: Chain, s: State, name: string): (r: (State, Outcome<nat>))
  {
    if FirstEntry(chain, name).None? || name in s.own then (s, OrdinaryGet(s.own, name))
    else
      match FirstCallable(chain, name)
      case None => (s, ReferenceError)
      case Some(e) =>
        var f := Function(|s.made|);
        (State(s.own[name := Slot(f, e.readOnly)], s.made + [name]), Got(f))
  }

  function Put(chain: Chain, s: State, name: string, v: Value<nat>, strict: bool): (r: (State, Outcome<nat>))
  {
    if FirstEntry(chain, name).None? || name in s.own then
      var (own, o) := OrdinaryPut(s.own, name, v, strict);
      (s.(own := own), o)
    else if FirstEntry(chain, name).value.readOnly then (s, Refused)
    else (s.(own := s.own[name := Slot(v, false)]), Stored)
  }

  class CallbackObject {
    const chain: Chain
    var own: Storage<nat>
    var made: seq<string>

    ghost function Contents(): (s: State)
      reads this
    {
      State(own, made)
    }

    constructor (chain: Chain)
      ensures this.chain == chain && Contents() == State(map[], [])
    {
      this.chain := chain;
      own, made := map[], [];
    }

    /** The walk over the classes that both reading and writing start with. */
    method FindEntry(name: string) returns (e: Option<Entry>)
      ensures e == FirstEntry(chain, name)
    {
      var i := 0;
      while i < |chain|
        invariant i <= |chain| && FirstEntry(chain[i..], name) == FirstEntry(chain, name)
      {
        if name in chain[i] {
          return Some(chain[i][name]);
        }
        i := i + 1;
      }
      return None;
    }

    method GetOwnProperty(name: string) returns (o: Outcome<nat>)
      modifies this
      ensures (Contents(), o) == Get(chain, old(Contents()), name)
    {
      var e := FindEntry(name);
      if e.Some? {
        o := StaticFunctionGetter(name);
      } else {
        o := OrdinaryGet(own, name);
      }
    }

    method StaticFunctionGetter(name: string) returns (o: Outcome<nat>)
      requires FirstEntry(chain, name).Some?
      modifies this
      ensures (Contents(), o) == Get(chain, old(Contents()), name)
    {
      if name in own {
        return Got(own[name].value);
      }
      var i := 0;
      while i < |chain|
        invariant i <= |chain| && FirstCallable(chain[i..], name) == FirstCallable(chain, name)
        invariant Contents() == old(Contents())
      {
        if name in chain[i] {
          var e := chain[i][name];
          if e.callable {
            var f := Function(|made|);
            made := made + [name];
            own := own[name := Slot(f, e.readOnly)];
            return Got(f);
          }
        }
        i := i + 1;
      }
      return ReferenceError;
    }

    method PutProperty(name: string, v: Value<nat>, strict: bool) returns (o: Outcome<nat>)
      modifies this
      ensures (Contents(), o) == Put(chain, old(Contents()), name, v, strict)
    {
      var e := FindEntry(name);
      if e.Some? && name !in own {
        if e.value.readOnly {
          return Refused;
        }
        own := own[name := Slot(v, false)];
        return Stored;
      }
      var r := OrdinaryPut(own, name, v, strict);
      own := r.0;
      return r.1;
    }
  }

  // ----- Programs

  /** An operand is a number or the value an earlier operation gave. */
  datatype Operand = Constant(n: int) | ResultOf(k: nat)

  datatype Op = Read(name: string) | Write(name: string, operand: Operand, strict: bool)

  function Resolve<F>(results: seq<Outcome<F>>, x: Operand): (v: Value<F>)
  {
    match x
    case Constant(n) => Number(n)
    case ResultOf(k) => if k < |results| && results[k].Got? then results[k].value else Undefined
  }

  function Step(chain: Chain, s: State, results: seq<Outcome<nat>>, op: Op): (r: (State, Outcome<nat>))
  {
    match op
    case Read(name) => Get(chain, s, name)
    case Write(name, x, strict) => Put(chain, s, name, Resolve(results, x), strict)
  }

  function Run(chain: Chain, s: State, results: seq<Outcome<nat>>, ops: seq<Op>): (r: (State, seq<Outcome<nat>>))
    decreases |ops|
  {
    if ops == [] then (s, results)
    else
      var (s', o) := Step(chain, s, results, ops[0]);
      Run(chain, s', results + [o], ops[1..])
  }

  // ----- The object with every function made in advance, functions named by their property

  function FilledGet(chain: Chain, own: Storage<string>, name: string): (o: Outcome<string>)
  {
    if name !in own && FirstEntry(chain, name).Some? then ReferenceError else OrdinaryGet(own, name)
  }

  function FilledPut(chain: Chain, own: Storage<string>, name: string, v: Value<string>, strict: bool): (r: (Storage<string>, Outcome<string>))
  {
    if name !in own && FirstEntry(chain, name).Some? && FirstEntry(chain, name).value.readOnly then (own, Refused)
    else OrdinaryPut(own, name, v, strict)
  }

  function FilledStep(chain: Chain, own: Storage<string>, results: seq<Outcome<string>>, op: Op): (r: (Storage<string>, Outcome<string>))
  {
    match op
    case Read(name) => (own, FilledGet(chain, own, name))
    case Write(name, x, strict) => FilledPut(chain, own, name, Resolve(results, x), strict)
  }

  function FilledRun(chain: Chain, own: Storage<string>, results: seq<Outcome<string>>, ops: seq<Op>): (r: (Storage<string>, seq<Outcome<string>>))
    decreases |ops|
  {
    if ops == [] then (own, results)
    else
      var (own', o) := FilledStep(chain, own, results, ops[0]);
      FilledRun(chain, own', results + [o], ops[1..])
  }

  // ----- What a lazy object stands for

  predicate Sound(made: seq<string>, v: Value<nat>) {
    v.Function? ==> v.f < |made|
  }

  predicate SoundOutcome(made: seq<string>, o: Outcome<nat>) {
    o.Got? ==> Sound(made, o.value)
  }

  predicate SoundResults(made: seq<string>, rs: seq<Outcome<nat>>) {
    forall i :: 0 <= i < |rs| ==> SoundOutcome(made, rs[i])
  }

  /** A function object is made once per name, and its name stays an own property. */
  predicate Valid(s: State) {
    && (forall name :: name in s.own ==> Sound(s.made, s.own[name].value))
    && (forall i :: 0 <= i < |s.made| ==> s.made[i] in s.own)
    && (forall i, j :: 0 <= i < j < |s.made| ==> s.made[i] != s.made[j])
  }

  function View(made: seq<string>, v: Value<nat>): (w: Value<string>)
  {
    match v
    case Undefined => Undefined
    case Number(n) => Number(n)
    case Function(i) => if i < |made| then Function(made[i]) else Undefined
  }

  function ViewOutcome(made: seq<string>, o: Outcome<nat>): (p: Outcome<string>)
  {
    match o
    case Got(v) => Got(View(made, v))
    case Missing => Missing
    case ReferenceError => ReferenceError
    case Stored => Stored
    case Refused => Refused
    case TypeError => TypeError
  }

  function Names(chain: Chain): (ns: set<string>)
  {
    if chain == [] then {} else chain[0].Keys + Names(chain[1..])
  }

  /** The storage with the functions that have not been made yet filled in. */
  function Filled(chain: Chain, s: State): (own: Storage<string>)
  {
    map name | name in s.own.Keys + Names(chain) && (name in s.own || FirstCallable(chain, name).Some?) ::
      if name in s.own then Slot(View(s.made, s.own[name].value), s.own[name].readOnly)
      else Slot(Function(name), FirstCallable(chain, name).value.readOnly)
  }

  const START := State(map[], [])

  /** Whether a refused write throws depends on the memo in strict mode; every other outcome is compared as it is. */
  function Blur(o: Outcome<string>): (p: Outcome<string>)
  {
    if o.TypeError? then Refused else o
  }

  // ----- Tables

  lemma {:induction false} ListedNames(chain: Chain, name: string)
    ensures FirstEntry(chain, name).Some? <==> name in Names(chain)
    ensures FirstCallable(chain, name).Some? ==> FirstEntry(chain, name).Some?
  {
    if chain != [] {
      ListedNames(chain[1..], name);
    }
  }

  /** The table that decides about writing and the table that supplies the function agree on read-only. */
  predicate Agreeing(chain: Chain) {
    forall name :: name in Names(chain) && FirstCallable(chain, name).Some? && FirstEntry(chain, name).Some? ==>
      FirstEntry(chain, name).value.readOnly == FirstCallable(chain, name).value.readOnly
  }

  predicate NonNull(chain: Chain) {
    forall i, name :: 0 <= i < |chain| && name in chain[i] ==> chain[i][name].callable
  }

  lemma {:induction false} NonNullFirst(chain: Chain, name: string)
    requires NonNull(chain)
    ensures FirstCallable(chain, name) == FirstEntry(chain, name)
  {
    if chain != [] {
      forall i, n | 0 <= i < |chain[1..]| && n in chain[1..][i] ensures chain[1..][i][n].callable {
        assert chain[1..][i] == chain[i + 1];
      }
      NonNullFirst(chain[1..], name);
    }
  }

  lemma NonNullAgrees(chain: Chain)
    requires NonNull(chain)
    ensures Agreeing(chain)
  {
    forall name | name in Names(chain) ensures FirstCallable(chain, name) == FirstEntry(chain, name) {
      NonNullFirst(chain, name);
    }
  }

  // ----- One step

  lemma ViewGrows(made: seq<string>, more: seq<string>, v: Value<nat>)
    requires Sound(made, v)
    ensures Sound(made + more, v) && View(made + more, v) == View(made, v)
  {
  }

  /** Reading changes nothing that can be seen, and sees what the filled object has. */
  lemma GetRefines(chain: Chain, s: State, name: string)
    requires Valid(s)
    ensures var (s', o) := Get(chain, s, name);
            && Valid(s') && s.made <= s'.made && SoundOutcome(s'.made, o)
            && Filled(chain, s') == Filled(chain, s)
            && ViewOutcome(s'.made, o) == FilledGet(chain, Filled(chain, s), name)
  {
    ListedNames(chain, name);
    if FirstEntry(chain, name).Some? && name !in s.own && FirstCallable(chain, name).Some? {
      MakeRefines(chain, s, name);
    }
  }

  lemma MakeRefines(chain: Chain, s: State, name: string)
    requires Valid(s) && name !in s.own && name in Names(chain) && FirstCallable(chain, name).Some?
    ensures var s' := State(s.own[name := Slot(Function(|s.made|), FirstCallable(chain, name).value.readOnly)], s.made + [name]);
            Valid(s') && Filled(chain, s') == Filled(chain, s)
  {
    hide FirstCallable, Names;
    var s' := State(s.own[name := Slot(Function(|s.made|), FirstCallable(chain, name).value.readOnly)], s.made + [name]);
    forall n | n in s.own ensures Sound(s'.made, s.own[n].value) && View(s'.made, s.own[n].value) == View(s.made, s.own[n].value) {
      ViewGrows(s.made, [name], s.own[n].value);
    }
    assert Filled(chain, s').Keys == Filled(chain, s).Keys;
  }

  /** Writing does to the filled object what it does to the lazy one. */
  lemma PutRefines(chain: Chain, s: State, name: string, v: Value<nat>, strict: bool)
    requires Valid(s) && Sound(s.made, v) && Agreeing(chain)
    ensures var (s', o) := Put(chain, s, name, v, strict);
            var (own', p) := FilledPut(chain, Filled(chain, s), name, View(s.made, v), strict);
            && Valid(s') && s'.made == s.made && SoundOutcome(s.made, o)
            && Filled(chain, s') == own'
            && Blur(ViewOutcome(s.made, o)) == Blur(p)
            && (ViewOutcome(s.made, o) != p ==> strict && FirstCallable(chain, name).Some? && FirstCallable(chain, name).value.readOnly)
  {
    hide Names, FirstEntry, FirstCallable;
    ListedNames(chain, name);
    StoreRefines(chain, s, name, v);
  }

  lemma StoreRefines(chain: Chain, s: State, name: string, v: Value<nat>)
    requires Valid(s) && Sound(s.made, v)
    ensures var s' := s.(own := s.own[name := Slot(v, false)]);
            Valid(s') && Filled(chain, s') == Filled(chain, s)[name := Slot(View(s.made, v), false)]
  {
    hide Names, FirstCallable, View;
  }

  // ----- Whole runs

  /** The results of a lazy run, seen as results of the filled object. */
  predicate Matches(made: seq<string>, rs: seq<Outcome<nat>>, es: seq<Outcome<string>>) {
    && |rs| == |es| && SoundResults(made, rs)
    && forall i :: 0 <= i < |rs| ==> Blur(ViewOutcome(made, rs[i])) == Blur(es[i])
  }

  lemma MatchesGrow(made: seq<string>, more: seq<string>, rs: seq<Outcome<nat>>, es: seq<Outcome<string>>)
    requires Matches(made, rs, es) && made <= more
    ensures Matches(more, rs, es)
  {
    forall i | 0 <= i < |rs| ensures SoundOutcome(more, rs[i]) && ViewOutcome(more, rs[i]) == ViewOutcome(made, rs[i]) {
      assert SoundOutcome(made, rs[i]);
    }
  }

  lemma ResolveRefines(made: seq<string>, rs: seq<Outcome<nat>>, es: seq<Outcome<string>>, x: Operand)
    requires Matches(made, rs, es)
    ensures Sound(made, Resolve(rs, x)) && View(made, Resolve(rs, x)) == Resolve(es, x)
  {
    if x.ResultOf? && x.k < |rs| {
      assert SoundOutcome(made, rs[x.k]) && Blur(ViewOutcome(made, rs[x.k])) == Blur(es[x.k]);
    }
  }

  lemma StepRefines(chain: Chain, s: State, rs: seq<Outcome<nat>>, es: seq<Outcome<string>>, op: Op)
    requires Agreeing(chain) && Valid(s) && Matches(s.made, rs, es)
    ensures var (s', o) := Step(chain, s, rs, op);
            var (own', p) := FilledStep(chain, Filled(chain, s), es, op);
            Valid(s') && s.made <= s'.made && Filled(chain, s') == own' && Matches(s'.made, rs + [o], es + [p])
  {
    hide Valid, Filled, Get, Put, FilledGet, FilledPut, Resolve, View;
    var (s', o) := Step(chain, s, rs, op);
    match op {
      case Read(name) => GetRefines(chain, s, name);
      case Write(name, x, strict) =>
        ResolveRefines(s.made, rs, es, x);
        PutRefines(chain, s, name, Resolve(rs, x), strict);
    }
    MatchesGrow(s.made, s'.made, rs, es);
  }

  lemma {:induction false} RunRefines(chain: Chain, s: State, rs: seq<Outcome<nat>>, es: seq<Outcome<string>>, ops: seq<Op>)
    requires Agreeing(chain) && Valid(s) && Matches(s.made, rs, es)
    ensures var (s', rs') := Run(chain, s, rs, ops);
            var (own', es') := FilledRun(chain, Filled(chain, s), es, ops);
            Valid(s') && s.made <= s'.made && Filled(chain, s') == own' && Matches(s'.made, rs', es')
    decreases |ops|
  {
    hide Valid, Filled, Step, FilledStep, Matches, Agreeing;
    if ops != [] {
      StepRefines(chain, s, rs, es, ops[0]);
      var (s', o) := Step(chain, s, rs, ops[0]);
      var (own', p) := FilledStep(chain, Filled(chain, s), es, ops[0]);
      RunRefines(chain, s', rs + [o], es + [p], ops[1..]);
    }
  }

  /** A program cannot tell a new object from one with all its functions made in advance. */
  predicate Transparent(chain: Chain, ops: seq<Op>) {
    var (s, rs) := Run(chain, START, [], ops);
    Matches(s.made, rs, FilledRun(chain, Filled(chain, START), [], ops).1)
  }

  /** With null callbacks in the chain the memo is transparent exactly when the two tables agree on read-only. */
  lemma TransparentIffAgreeing(chain: Chain)
    ensures (forall ops :: Transparent(chain, ops)) <==> Agreeing(chain)
  {
    if Agreeing(chain) {
      forall ops ensures Transparent(chain, ops) {
        RunRefines(chain, START, [], [], ops);
      }
    } else {
      var name :| name in Names(chain) && FirstCallable(chain, name).Some? && FirstEntry(chain, name).Some? &&
        FirstEntry(chain, name).value.readOnly != FirstCallable(chain, name).value.readOnly;
      WriteTells(chain, name);
    }
  }

  lemma RunOne(chain: Chain, op: Op)
    ensures var (s, o) := Step(chain, START, [], op);
            var (own, p) := FilledStep(chain, Filled(chain, START), [], op);
            && Run(chain, START, [], [op]) == (s, [o]) && FilledRun(chain, Filled(chain, START), [], [op]) == (own, [p])
            && [o][0] == o && [p][0] == p
  {
    hide Step, FilledStep, Filled;
    var ops := [op];
    var none: seq<Op> := [];
    assert ops[1..] == none;
    var (s, o) := Step(chain, START, [], op);
    var (own, p) := FilledStep(chain, Filled(chain, START), [], op);
    var rs: seq<Outcome<nat>>, es: seq<Outcome<string>> := [], [];
    assert rs + [o] == [o] && es + [p] == [p];
    assert Run(chain, START, rs, ops) == Run(chain, s, [o], none) == (s, [o]);
    assert FilledRun(chain, Filled(chain, START), es, ops) == FilledRun(chain, own, [p], none) == (own, [p]);
  }

  lemma WriteTells(chain: Chain, name: string)
    requires name in Names(chain) && FirstCallable(chain, name).Some? && FirstEntry(chain, name).Some?
    requires FirstEntry(chain, name).value.readOnly != FirstCallable(chain, name).value.readOnly
    ensures !Transparent(chain, [Write(name, Constant(0), false)]) && !Indistinguishable(chain, [Write(name, Constant(0), false)])
  {
    hide FirstEntry, FirstCallable, Names;
    var op := Write(name, Constant(0), false);
    var (s, o) := Step(chain, START, [], op);
    var (own, p) := FilledStep(chain, Filled(chain, START), [], op);
    RunOne(chain, op);
    assert Blur(ViewOutcome(s.made, o)) != Blur(p);
  }

  /** Reading a name early, late or not at all changes no later outcome. */
  lemma ReadIsInvisible(chain: Chain, s: State, rs: seq<Outcome<nat>>, es: seq<Outcome<string>>, name: string, ops: seq<Op>)
    requires Agreeing(chain) && Valid(s) && Matches(s.made, rs, es)
    ensures var s' := Get(chain, s, name).0;
            var es' := FilledRun(chain, Filled(chain, s), es, ops).1;
            var (t, ts) := Run(chain, s, rs, ops);
            var (u, us) := Run(chain, s', rs, ops);
            Matches(t.made, ts, es') && Matches(u.made, us, es') && Filled(chain, t) == Filled(chain, u)
  {
    hide Valid, Filled, Get, Matches, Agreeing, Run, FilledRun;
    GetRefines(chain, s, name);
    var s' := Get(chain, s, name).0;
    MatchesGrow(s.made, s'.made, rs, es);
    RunRefines(chain, s, rs, es, ops);
    RunRefines(chain, s', rs, es, ops);
  }

  /** Between writes that go through, every read of a name gives the same function object. */
  lemma {:induction false} ReadsAreStable(chain: Chain, s: State, rs: seq<Outcome<nat>>, ops: seq<Op>, name: string)
    requires name in s.own
    requires s.own[name].readOnly || forall i :: 0 <= i < |ops| && ops[i].Write? ==> ops[i].name != name
    ensures var t := Run(chain, s, rs, ops).0;
            name in t.own && t.own[name] == s.own[name] && Get(chain, t, name) == (t, Got(s.own[name].value))
    decreases |ops|
  {
    if ops != [] {
      var (s', o) := Step(chain, s, rs, ops[0]);
      assert name in s'.own && s'.own[name] == s.own[name];
      ReadsAreStable(chain, s', rs + [o], ops[1..], name);
    }
  }

  // ----- The eager object

  function OrdinaryStep(own: Storage<string>, results: seq<Outcome<string>>, op: Op): (r: (Storage<string>, Outcome<string>))
  {
    match op
    case Read(name) => (own, OrdinaryGet(own, name))
    case Write(name, x, strict) => OrdinaryPut(own, name, Resolve(results, x), strict)
  }

  function OrdinaryRun(own: Storage<string>, results: seq<Outcome<string>>, ops: seq<Op>): (r: (Storage<string>, seq<Outcome<string>>))
    decreases |ops|
  {
    if ops == [] then (own, results)
    else
      var (own', o) := OrdinaryStep(own, results, ops[0]);
      OrdinaryRun(own', results + [o], ops[1..])
  }

  /** An ordinary object that has one function for every name in the tables from the start. */
  function Eager(chain: Chain): (own: Storage<string>)
  {
    map name | name in Names(chain) && FirstEntry(chain, name).Some? ::
      Slot(Function(name), FirstEntry(chain, name).value.readOnly)
  }

  lemma StartIsEager(chain: Chain)
    requires NonNull(chain)
    ensures Filled(chain, START) == Eager(chain) && Names(chain) <= Eager(chain).Keys
  {
    hide Names, FirstEntry, FirstCallable, NonNull;
    forall name | name in Names(chain)
      ensures FirstCallable(chain, name) == FirstEntry(chain, name) && FirstEntry(chain, name).Some?
    {
      NonNullFirst(chain, name);
      ListedNames(chain, name);
    }
  }

  lemma {:induction false} FilledRunIsOrdinary(chain: Chain, own: Storage<string>, es: seq<Outcome<string>>, ops: seq<Op>)
    requires Names(chain) <= own.Keys
    ensures FilledRun(chain, own, es, ops) == OrdinaryRun(own, es, ops)
    decreases |ops|
  {
    hide Names, FirstEntry, Resolve;
    if ops != [] {
      ListedNames(chain, ops[0].name);
      var (own', o) := OrdinaryStep(own, es, ops[0]);
      FilledRunIsOrdinary(chain, own', es + [o], ops[1..]);
    }
  }

  /** With non-null callbacks every program sees an eager ordinary object. */
  lemma RefinesEager(chain: Chain, ops: seq<Op>)
    requires NonNull(chain)
    ensures var (s, rs) := Run(chain, START, [], ops);
            Matches(s.made, rs, OrdinaryRun(Eager(chain), [], ops).1)
  {
    hide NonNull, Agreeing, Names, Filled, Eager, Run, FilledRun, OrdinaryRun, Matches;
    NonNullAgrees(chain);
    StartIsEager(chain);
    StartMatches();
    RunRefines(chain, START, [], [], ops);
    FilledRunIsOrdinary(chain, Eager(chain), [], ops);
  }

  lemma StartMatches()
    ensures Valid(START) && Matches(START.made, [], [])
  {
  }

  // ----- Strict mode

  /** Every outcome is the same, a thrown refusal included. */
  predicate Exactly(made: seq<string>, rs: seq<Outcome<nat>>, es: seq<Outcome<string>>) {
    |rs| == |es| && forall i :: 0 <= i < |rs| ==> ViewOutcome(made, rs[i]) == es[i]
  }

  /** A strict-mode write does not go to a read-only function. */
  predicate Harmless(chain: Chain, op: Op) {
    op.Write? && op.strict && FirstCallable(chain, op.name).Some? ==> !FirstCallable(chain, op.name).value.readOnly
  }

  lemma ExactlyGrow(made: seq<string>, more: seq<string>, rs: seq<Outcome<nat>>, es: seq<Outcome<string>>)
    requires Exactly(made, rs, es) && SoundResults(made, rs) && made <= more
    ensures Exactly(more, rs, es)
  {
    forall i | 0 <= i < |rs| ensures ViewOutcome(more, rs[i]) == ViewOutcome(made, rs[i]) {
      assert SoundOutcome(made, rs[i]);
    }
  }

  lemma StepExact(chain: Chain, s: State, rs: seq<Outcome<nat>>, es: seq<Outcome<string>>, op: Op)
    requires Agreeing(chain) && Valid(s) && Matches(s.made, rs, es) && Exactly(s.made, rs, es) && Harmless(chain, op)
    ensures var (s', o) := Step(chain, s, rs, op);
            Exactly(s'.made, rs + [o], es + [FilledStep(chain, Filled(chain, s), es, op).1])
  {
    hide Valid, Filled, Get, Put, FilledGet, FilledPut, Resolve, View, Names, FirstEntry;
    var (s', o) := Step(chain, s, rs, op);
    match op {
      case Read(name) => GetRefines(chain, s, name);
      case Write(name, x, strict) =>
        ResolveRefines(s.made, rs, es, x);
        PutRefines(chain, s, name, Resolve(rs, x), strict);
    }
    ExactlyGrow(s.made, s'.made, rs, es);
  }

  lemma {:induction false} RunExact(chain: Chain, s: State, rs: seq<Outcome<nat>>, es: seq<Outcome<string>>, ops: seq<Op>)
    requires Agreeing(chain) && Valid(s) && Matches(s.made, rs, es) && Exactly(s.made, rs, es)
    requires forall i :: 0 <= i < |ops| ==> Harmless(chain, ops[i])
    ensures var (s', rs') := Run(chain, s, rs, ops);
            Exactly(s'.made, rs', FilledRun(chain, Filled(chain, s), es, ops).1)
    decreases |ops|
  {
    hide Valid, Filled, Step, FilledStep, Matches, Agreeing, Exactly, Harmless;
    if ops != [] {
      StepRefines(chain, s, rs, es, ops[0]);
      StepExact(chain, s, rs, es, ops[0]);
      var (s', o) := Step(chain, s, rs, ops[0]);
      var (own', p) := FilledStep(chain, Filled(chain, s), es, ops[0]);
      RunExact(chain, s', rs + [o], es + [p], ops[1..]);
    }
  }

  predicate Indistinguishable(chain: Chain, ops: seq<Op>) {
    var (s, rs) := Run(chain, START, [], ops);
    Exactly(s.made, rs, FilledRun(chain, Filled(chain, START), [], ops).1)
  }

  /** No function can be read-only. */
  predicate Writable(chain: Chain) {
    forall name :: name in Names(chain) && FirstCallable(chain, name).Some? ==> !FirstCallable(chain, name).value.readOnly
  }

  /**
   * Writing to a read-only function in strict mode fails silently before the function is made and
   * throws afterwards, so thrown refusals agree too exactly when the tables agree and no function is
   * read-only.
   */
  lemma IndistinguishableIffWritable(chain: Chain)
    ensures (forall ops :: Indistinguishable(chain, ops)) <==> Agreeing(chain) && Writable(chain)
  {
    if Agreeing(chain) && Writable(chain) {
      forall ops: seq<Op> ensures Indistinguishable(chain, ops) {
        forall i | 0 <= i < |ops| ensures Harmless(chain, ops[i]) {
          ListedNames(chain, ops[i].name);
        }
        RunExact(chain, START, [], [], ops);
      }
    } else if !Agreeing(chain) {
      var name :| name in Names(chain) && FirstCallable(chain, name).Some? && FirstEntry(chain, name).Some? &&
        FirstEntry(chain, name).value.readOnly != FirstCallable(chain, name).value.readOnly;
      WriteTells(chain, name);
    } else {
      var name :| name in Names(chain) && FirstCallable(chain, name).Some? && FirstCallable(chain, name).value.readOnly;
      ListedNames(chain, name);
      StrictWriteTells(chain, name);
    }
  }

  lemma StrictWriteTells(chain: Chain, name: string)
    requires name in Names(chain) && FirstCallable(chain, name).Some? && FirstEntry(chain, name).Some?
    requires FirstEntry(chain, name).value.readOnly && FirstCallable(chain, name).value.readOnly
    ensures !Indistinguishable(chain, [Write(name, Constant(0), true)])
  {
    hide FirstEntry, FirstCallable, Names;
    var op := Write(name, Constant(0), true);
    RunOne(chain, op);
    assert Step(chain, START, [], op).1 == Refused && FilledStep(chain, Filled(chain, START), [], op).1 == TypeError;
  }
}
