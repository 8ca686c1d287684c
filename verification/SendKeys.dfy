/** elementSendKeys of the WebDriver session: modifiers stick until typed again, and none is left held. */
module SendKeys {
  import opened Wrappers

  datatype Modifier = Shift | Control | Alternate | Meta

  function Name(m: Modifier): (s: string)
  {
    match m
    case Shift => "Shift"
    case Control => "Control"
    case Alternate => "Alternate"
    case Meta => "Meta"
  }

  datatype Type = KeyPress | KeyRelease | InsertByKey

  datatype Interaction = Interaction(kind: Type, text: Option<string>, key: Option<string>)

  // ----- Which key is meant

  /** The modifiers in the table of virtual keys, by the first character of a key. */
  function ModifierOf(key: string): (m: Option<Modifier>)
  {
    if key == [] then None
    else if key[0] == '\U{E008}' then Some(Shift)
    else if key[0] == '\U{E009}' then Some(Control)
    else if key[0] == '\U{E00A}' then Some(Alternate)
    else if key[0] == '\U{E03D}' then Some(Meta)
    else None
  }

  /** The rest of that table: names of keys that are no modifiers. */
  type KeyNames = map<char, string>

  function NamedKey(names: KeyNames, key: string): (name: Option<string>)
  {
    if key != [] && key[0] in names then Some(names[key[0]]) else None
  }

  // ----- The sticky bits

  function Bit(m: Modifier): (b: bv4)
  {
    match m
    case Shift => 1
    case Control => 2
    case Alternate => 4
    case Meta => 8
  }

  predicate Holds(sticky: bv4, m: Modifier)
  {
    sticky & Bit(m) != 0
  }

  lemma Toggle(sticky: bv4, m: Modifier, other: Modifier)
    ensures Holds(sticky ^ Bit(m), other) <==> (if m == other then !Holds(sticky, m) else Holds(sticky, other))
  {
  }

  // ----- What a sequence of interactions does to a modifier

  /** Whether `m` is down at the end; nothing if it was pressed while down or released while up. */
  function Play(xs: seq<Interaction>, m: Modifier): (down: Option<bool>)
  {
    if xs == [] then Some(false)
    else
      var before := Play(xs[..|xs| - 1], m);
      var last := xs[|xs| - 1];
      if last.key != Some(Name(m)) || last.kind == InsertByKey then before
      else if before == Some(last.kind == KeyRelease) then Some(last.kind == KeyPress)
      else None
  }

  /** How often `m` was typed. */
  function Typed(keys: seq<string>, m: Modifier): (n: nat)
  {
    if keys == [] then 0
    else Typed(keys[..|keys| - 1], m) + if ModifierOf(keys[|keys| - 1]) == Some(m) then 1 else 0
  }

  /** The interaction a key stands for, given how often each modifier was typed before it. */
  ghost predicate Matches(names: KeyNames, keys: seq<string>, i: nat, x: Interaction)
    requires i < |keys|
  {
    match ModifierOf(keys[i])
    case Some(m) => x == Interaction(if Typed(keys[..i], m) % 2 == 0 then KeyPress else KeyRelease, None, Some(Name(m)))
    case None =>
      match NamedKey(names, keys[i])
      case Some(name) => x == Interaction(InsertByKey, None, Some(name))
      case None => x == Interaction(InsertByKey, Some(keys[i]), None)
  }

  function Release(m: Modifier): (x: Interaction)
  {
    Interaction(KeyRelease, None, Some(Name(m)))
  }

  lemma PlaySnoc(xs: seq<Interaction>, x: Interaction, m: Modifier)
    ensures Play(xs + [x], m)
            == if x.key != Some(Name(m)) || x.kind == InsertByKey then Play(xs, m)
               else if Play(xs, m) == Some(x.kind == KeyRelease) then Some(x.kind == KeyPress)
               else None
  {
    assert (xs + [x])[..|xs|] == xs;
  }

  lemma TypedSnoc(keys: seq<string>, i: nat, m: Modifier)
    requires i < |keys|
    ensures Typed(keys[..i + 1], m) == Typed(keys[..i], m) + if ModifierOf(keys[i]) == Some(m) then 1 else 0
  {
    assert keys[..i + 1][..i] == keys[..i];
  }

  // ----- The loops

  /** The bits, the interactions and the keys agree on what is held. */
  ghost predicate InStep(keys: seq<string>, xs: seq<Interaction>, sticky: bv4)
  {
    forall m :: Play(xs, m) == Some(Holds(sticky, m)) && (Holds(sticky, m) <==> Typed(keys, m) % 2 == 1)
  }

  function After(sticky: bv4, typed: Option<Modifier>): (r: bv4)
  {
    if typed.Some? then sticky ^ Bit(typed.value) else sticky
  }

  lemma InStepOne(names: KeyNames, keys: seq<string>, i: nat, xs: seq<Interaction>, sticky: bv4, x: Interaction, m: Modifier)
    requires i < |keys| && InStep(keys[..i], xs, sticky) && Matches(names, keys, i, x)
    ensures Play(xs + [x], m) == Some(Holds(After(sticky, ModifierOf(keys[i])), m))
    ensures Holds(After(sticky, ModifierOf(keys[i])), m) <==> Typed(keys[..i + 1], m) % 2 == 1
  {
    hide Play, Typed, Holds, Bit;
    var typed := ModifierOf(keys[i]);
    PlaySnoc(xs, x, m);
    TypedSnoc(keys, i, m);
    if typed.Some? {
      Toggle(sticky, typed.value, m);
      assert m != typed.value ==> Name(m) != Name(typed.value);
    }
  }

  lemma InStepSnoc(names: KeyNames, keys: seq<string>, i: nat, xs: seq<Interaction>, sticky: bv4, x: Interaction)
    requires i < |keys| && InStep(keys[..i], xs, sticky) && Matches(names, keys, i, x)
    ensures InStep(keys[..i + 1], xs + [x], After(sticky, ModifierOf(keys[i])))
  {
    hide Play, Typed, Holds, Bit, After, Matches, ModifierOf;
    forall m
      ensures Play(xs + [x], m) == Some(Holds(After(sticky, ModifierOf(keys[i])), m))
      ensures Holds(After(sticky, ModifierOf(keys[i])), m) <==> Typed(keys[..i + 1], m) % 2 == 1
    {
      InStepOne(names, keys, i, xs, sticky, x, m);
    }
  }

  /** The interactions of the keys themselves. */
  method TypeKeys(names: KeyNames, keys: seq<string>) returns (interactions: seq<Interaction>, sticky: bv4)
    ensures |interactions| == |keys| && forall i :: 0 <= i < |keys| ==> Matches(names, keys, i, interactions[i])
    ensures InStep(keys, interactions, sticky)
  {
    sticky := 0;
    interactions := [];
    var i := 0;
    while i < |keys|
      invariant i == |interactions| <= |keys|
      invariant forall j :: 0 <= j < i ==> Matches(names, keys, j, interactions[j])
      invariant InStep(keys[..i], interactions, sticky)
    {
      var interaction := Interaction(InsertByKey, None, None);
      var modifier := ModifierOf(keys[i]);
      var named := NamedKey(names, keys[i]);
      ghost var before := sticky;
      if modifier.Some? {
        sticky := sticky ^ Bit(modifier.value);
        interaction := interaction.(key := Some(Name(modifier.value)),
                                    kind := if sticky & Bit(modifier.value) != 0 then KeyPress else KeyRelease);
        Toggle(before, modifier.value, modifier.value);
      } else if named.Some? {
        interaction := interaction.(key := named);
      } else {
        interaction := interaction.(text := Some(keys[i]));
      }
      InStepSnoc(names, keys, i, interactions, before, interaction);
      interactions := interactions + [interaction];
      i := i + 1;
    }
    assert keys[..i] == keys;
  }

  /** A release of `m` if it is held. */
  function Owed(sticky: bv4, m: Modifier): (r: seq<Interaction>)
  {
    if Holds(sticky, m) then [Release(m)] else []
  }

  /** The releases owed for `sticky`, one for each modifier held. */
  function Releases(sticky: bv4): (r: seq<Interaction>)
  {
    Owed(sticky, Shift) + Owed(sticky, Control) + Owed(sticky, Alternate) + Owed(sticky, Meta)
  }

  lemma ReleasesAreExact(sticky: bv4)
    ensures forall m :: Release(m) in Releases(sticky) <==> Holds(sticky, m)
    ensures forall x :: x in Releases(sticky) ==> exists m :: x == Release(m)
    ensures var r := Releases(sticky); forall i, j :: 0 <= i < j < |r| ==> r[i] != r[j]
  {
    hide Holds;
  }

  /** Paying what is owed for `m` puts `m` up and leaves the others as they are. */
  lemma PayOne(xs: seq<Interaction>, sticky: bv4, m: Modifier, other: Modifier)
    requires Play(xs, m) == Some(Holds(sticky, m))
    ensures Play(xs + Owed(sticky, m), other) == if m == other then Some(false) else Play(xs, other)
  {
    if Holds(sticky, m) {
      PlaySnoc(xs, Release(m), other);
    } else {
      assert xs + Owed(sticky, m) == xs;
    }
  }

  /** Paying everything leaves every modifier up. */
  lemma PayAll(xs: seq<Interaction>, sticky: bv4, m: Modifier)
    requires forall x: Modifier :: Play(xs, x) == Some(Holds(sticky, x))
    ensures Play(xs + Releases(sticky), m) == Some(false)
  {
    hide Play, Holds, Owed;
    var a := xs + Owed(sticky, Shift);
    var b := a + Owed(sticky, Control);
    var c := b + Owed(sticky, Alternate);
    assert xs + Releases(sticky) == c + Owed(sticky, Meta);
    forall x: Modifier ensures Play(a, x) == if x == Shift then Some(false) else Play(xs, x) { PayOne(xs, sticky, Shift, x); }
    forall x: Modifier ensures Play(b, x) == if x == Control then Some(false) else Play(a, x) { PayOne(a, sticky, Control, x); }
    forall x: Modifier ensures Play(c, x) == if x == Alternate then Some(false) else Play(b, x) { PayOne(b, sticky, Alternate, x); }
    PayOne(c, sticky, Meta, m);
  }

  /** Reset sticky modifiers if needed. */
  method ResetSticky(typed: seq<Interaction>, stickyModifiers: bv4) returns (interactions: seq<Interaction>)
    ensures interactions == typed + Releases(stickyModifiers)
  {
    interactions := typed;
    if stickyModifiers != 0 {
      if stickyModifiers & Bit(Shift) != 0 {
        interactions := interactions + [Release(Shift)];
      }
      if stickyModifiers & Bit(Control) != 0 {
        interactions := interactions + [Release(Control)];
      }
      if stickyModifiers & Bit(Alternate) != 0 {
        interactions := interactions + [Release(Alternate)];
      }
      if stickyModifiers & Bit(Meta) != 0 {
        interactions := interactions + [Release(Meta)];
      }
    }
  }

  /**
   The interactions sent for `keys`: one for each key, then the releases of
   exactly the modifiers still held. Every modifier alternates press and
   release, starts with press and ends up.
   */
  method Interactions(names: KeyNames, keys: seq<string>) returns (interactions: seq<Interaction>)
    ensures |keys| <= |interactions|
    ensures forall i :: 0 <= i < |keys| ==> Matches(names, keys, i, interactions[i])
    ensures forall m :: Play(interactions, m) == Some(false)
    ensures forall m :: Release(m) in interactions[|keys|..] <==> Typed(keys, m) % 2 == 1
    ensures forall i :: |keys| <= i < |interactions| ==> exists m :: interactions[i] == Release(m)
    ensures forall i, j :: |keys| <= i < j < |interactions| ==> interactions[i] != interactions[j]
  {
    hide Play, Holds, Releases, Typed;
    var typed, stickyModifiers := TypeKeys(names, keys);
    interactions := ResetSticky(typed, stickyModifiers);
    ghost var tail := Releases(stickyModifiers);
    ReleasesAreExact(stickyModifiers);
    assert interactions[|keys|..] == tail;
    assert forall i :: |keys| <= i < |interactions| ==> interactions[i] == tail[i - |keys|] && tail[i - |keys|] in tail;
    forall m ensures Play(interactions, m) == Some(false) {
      PayAll(typed, stickyModifiers, m);
    }
  }
}
