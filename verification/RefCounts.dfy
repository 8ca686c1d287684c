/**
 * Reference counts of JavaScript contexts and context groups. A group is a VM with a reference count, a
 * context is a global object with a protect count, and a JSRetainPtr is a variable that owns one retain.
 */
module RefCounts {
  import opened Wrappers

  /** A JSRetainPtr: gone after its destructor, null, or holding a context. */
  datatype Pointer = Gone | Null | To(context: nat)

  /** What the client holds: the retains it has to give back itself, and the smart pointers. */
  datatype Holdings = Holdings(
    groups: nat,
    home: seq<nat>,
    pointers: seq<Pointer>,
    rawGroups: multiset<nat>,
    rawContexts: multiset<nat>
  )

  /** The retains of a context, given back by hand or by a pointer. */
  function Retains(h: Holdings, c: nat): (n: nat)
  {
    h.rawContexts[c] + multiset(h.pointers)[To(c)]
  }

  /** The API's own rule: a group lives iff it or one of its contexts is retained. */
  predicate Alive(h: Holdings, g: nat) {
    h.rawGroups[g] > 0 || exists c :: 0 <= c < |h.home| && h.home[c] == g && Retains(h, c) > 0
  }

  predicate WellFormed(h: Holdings) {
    && (forall c :: 0 <= c < |h.home| ==> h.home[c] < h.groups)
    && (forall g :: g in h.rawGroups ==> g < h.groups)
    && Within(h.pointers, h.rawContexts, |h.home|)
  }

  /** Pointers and retains are of contexts that exist. */
  predicate Within(pointers: seq<Pointer>, raw: multiset<nat>, n: nat) {
    && (forall p :: 0 <= p < |pointers| && pointers[p].To? ==> pointers[p].context < n)
    && (forall c :: c in raw ==> c < n)
  }

  /** The retains of all contexts of a group. */
  ghost function Total(home: seq<nat>, protects: seq<nat>, g: nat): (n: nat)
    requires |home| == |protects|
  {
    if home == [] then 0
    else
      var n := |home| - 1;
      Total(home[..n], protects[..n], g) + if home[n] == g then protects[n] else 0
  }

  lemma {:induction false} TotalUpdate(home: seq<nat>, protects: seq<nat>, g: nat, c: nat, n: nat)
    requires |home| == |protects| && c < |home|
    ensures Total(home, protects[c := n], g) == Total(home, protects, g) + if home[c] == g then n - protects[c] else 0
  {
    var k := |home| - 1;
    if c < k {
      assert protects[c := n][..k] == protects[..k][c := n];
      TotalUpdate(home[..k], protects[..k], g, c, n);
    } else {
      assert protects[c := n][..k] == protects[..k];
    }
  }

  lemma TotalAppend(home: seq<nat>, protects: seq<nat>, g: nat, h: nat)
    requires |home| == |protects|
    ensures Total(home + [h], protects + [0], g) == Total(home, protects, g)
  {
    assert (home + [h])[..|home|] == home && (protects + [0])[..|home|] == protects;
  }

  /** A group has context retains exactly when one of its contexts has. */
  lemma {:induction false} TotalPositive(home: seq<nat>, protects: seq<nat>, g: nat)
    requires |home| == |protects|
    ensures Total(home, protects, g) > 0 <==> exists c :: 0 <= c < |home| && home[c] == g && protects[c] > 0
  {
    if home != [] {
      var n := |home| - 1;
      TotalPositive(home[..n], protects[..n], g);
      if Total(home[..n], protects[..n], g) > 0 {
        var c :| 0 <= c < n && home[..n][c] == g && protects[..n][c] > 0;
        assert home[c] == g && protects[c] > 0;
      }
      if c :| 0 <= c < |home| && home[c] == g && protects[c] > 0 {
        if c < n {
          assert home[..n][c] == g && protects[..n][c] > 0;
        }
      }
    }
  }

  /** The counts the engine keeps agree with what the client holds. */
  ghost predicate Balanced(groups: seq<nat>, protects: seq<nat>, h: Holdings) {
    && WellFormed(h) && |groups| == h.groups && |protects| == |h.home|
    && (forall c :: 0 <= c < |protects| ==> protects[c] == Retains(h, c))
    && (forall g :: 0 <= g < |groups| ==> groups[g] == h.rawGroups[g] + Total(h.home, protects, g))
  }

  /** A group's count is positive iff the group or one of its contexts is retained. */
  lemma LivesIff(groups: seq<nat>, protects: seq<nat>, h: Holdings, g: nat)
    requires Balanced(groups, protects, h) && g < |groups|
    ensures groups[g] > 0 <==> Alive(h, g)
  {
    hide Retains, WellFormed;
    TotalPositive(h.home, protects, g);
  }

  // ----- What each change of a count does to the balance

  lemma GroupRefBalanced(groups: seq<nat>, protects: seq<nat>, h: Holdings, g: nat)
    requires Balanced(groups, protects, h) && g < |groups|
    ensures Balanced(groups[g := groups[g] + 1], protects, h.(rawGroups := h.rawGroups + multiset{g}))
  {
    hide Total;
  }

  lemma GroupDerefBalanced(groups: seq<nat>, protects: seq<nat>, h: Holdings, g: nat)
    requires Balanced(groups, protects, h) && g in h.rawGroups
    ensures g < |groups| && groups[g] > 0
    ensures Balanced(groups[g := groups[g] - 1], protects, h.(rawGroups := h.rawGroups - multiset{g}))
  {
    hide Total;
  }

  lemma RetainBalanced(groups: seq<nat>, protects: seq<nat>, h: Holdings, c: nat)
    requires Balanced(groups, protects, h) && c < |h.home|
    ensures var g := h.home[c];
            Balanced(groups[g := groups[g] + 1], protects[c := protects[c] + 1], h.(rawContexts := h.rawContexts + multiset{c}))
  {
    hide Total;
    forall g ensures Total(h.home, protects[c := protects[c] + 1], g) == Total(h.home, protects, g) + if h.home[c] == g then 1 else 0 {
      TotalUpdate(h.home, protects, g, c, protects[c] + 1);
    }
  }

  lemma ReleaseBalanced(groups: seq<nat>, protects: seq<nat>, h: Holdings, c: nat)
    requires Balanced(groups, protects, h) && c in h.rawContexts
    ensures c < |h.home| && protects[c] > 0 && h.home[c] < |groups| && groups[h.home[c]] > 0
    ensures var g := h.home[c];
            Balanced(groups[g := groups[g] - 1], protects[c := protects[c] - 1], h.(rawContexts := h.rawContexts - multiset{c}))
  {
    hide Total;
    TotalUpdate(h.home, protects, h.home[c], c, 0);
    forall g ensures Total(h.home, protects[c := protects[c] - 1], g) == Total(h.home, protects, g) - if h.home[c] == g then 1 else 0 {
      TotalUpdate(h.home, protects, g, c, protects[c] - 1);
    }
  }

  /** Moving a retain between a pointer and the client's own hands leaves every count as it is. */
  lemma MoveBalanced(groups: seq<nat>, protects: seq<nat>, h: Holdings, h': Holdings)
    requires Balanced(groups, protects, h) && WellFormed(h')
    requires h'.groups == h.groups && h'.home == h.home && h'.rawGroups == h.rawGroups
    requires forall c :: 0 <= c < |h.home| ==> Retains(h', c) == Retains(h, c)
    ensures Balanced(groups, protects, h')
  {
    hide Total, Retains;
  }

  function Owned(p: Pointer): (m: multiset<nat>)
  {
    if p.To? then multiset{p.context} else multiset{}
  }

  function Target(x: Option<nat>): (p: Pointer)
  {
    if x.Some? then To(x.value) else Null
  }

  /** Storing an owned retain in a pointer, whose former retain comes back to the client's hands. */
  function Exchange(h: Holdings, p: nat, x: Pointer): (h': Holdings)
    requires p < |h.pointers|
  {
    h.(pointers := h.pointers[p := x], rawContexts := h.rawContexts - Owned(x) + Owned(h.pointers[p]))
  }

  lemma ExchangeBalanced(groups: seq<nat>, protects: seq<nat>, h: Holdings, p: nat, x: Pointer)
    requires Balanced(groups, protects, h) && p < |h.pointers| && Owned(x) <= h.rawContexts
    ensures Balanced(groups, protects, Exchange(h, p, x))
  {
    hide Balanced, Retains, WellFormed;
    assert WellFormed(h) by {
      BalancedWellFormed(groups, protects, h);
    }
    ExchangeWellFormed(h, p, x);
    forall c | 0 <= c < |h.home| ensures Retains(Exchange(h, p, x), c) == Retains(h, c) {
      ExchangeRetains(h, p, x, c);
    }
    MoveBalanced(groups, protects, h, Exchange(h, p, x));
  }

  lemma BalancedWellFormed(groups: seq<nat>, protects: seq<nat>, h: Holdings)
    requires Balanced(groups, protects, h)
    ensures WellFormed(h)
  {
  }

  lemma ExchangeWellFormed(h: Holdings, p: nat, x: Pointer)
    requires WellFormed(h) && p < |h.pointers| && Owned(x) <= h.rawContexts
    ensures WellFormed(Exchange(h, p, x))
  {
    assert x.To? ==> x.context in h.rawContexts;
  }

  lemma CountUpdate(s: seq<Pointer>, p: nat, x: Pointer, z: Pointer)
    requires p < |s|
    ensures multiset(s[p := x])[z] == multiset(s)[z] + (if x == z then 1 else 0) - if s[p] == z then 1 else 0
  {
    assert multiset(s[p := x]) == multiset(s) - multiset{s[p]} + multiset{x};
    assert s[p] in multiset(s);
  }

  lemma CountOwned(m: multiset<nat>, x: Pointer, y: Pointer, c: nat)
    requires Owned(x) <= m
    ensures (m - Owned(x) + Owned(y))[c] == m[c] + (if y == To(c) then 1 else 0) - if x == To(c) then 1 else 0
  {
    assert Owned(x)[c] <= m[c];
  }

  lemma ExchangeRetains(h: Holdings, p: nat, x: Pointer, c: nat)
    requires p < |h.pointers| && Owned(x) <= h.rawContexts
    ensures Retains(Exchange(h, p, x), c) == Retains(h, c)
  {
    hide Owned;
    CountUpdate(h.pointers, p, x, To(c));
    CountOwned(h.rawContexts, x, h.pointers[p], c);
  }

  /** A new pointer takes over an owned retain. */
  lemma AppendBalanced(groups: seq<nat>, protects: seq<nat>, h: Holdings, x: Pointer)
    requires Balanced(groups, protects, h) && Owned(x) <= h.rawContexts
    ensures Balanced(groups, protects, h.(pointers := h.pointers + [x], rawContexts := h.rawContexts - Owned(x)))
  {
    hide Total;
    var h' := h.(pointers := h.pointers + [x], rawContexts := h.rawContexts - Owned(x));
    assert x.To? ==> x.context in h.rawContexts;
    MoveBalanced(groups, protects, h, h');
  }

  lemma SwapBalanced(groups: seq<nat>, protects: seq<nat>, h: Holdings, p: nat, q: nat)
    requires Balanced(groups, protects, h) && p < |h.pointers| && q < |h.pointers|
    ensures Balanced(groups, protects, h.(pointers := h.pointers[p := h.pointers[q]][q := h.pointers[p]]))
  {
    hide Total;
    var h' := h.(pointers := h.pointers[p := h.pointers[q]][q := h.pointers[p]]);
    assert multiset(h'.pointers) == multiset(h.pointers);
    MoveBalanced(groups, protects, h, h');
  }

  lemma NewGroupBalanced(groups: seq<nat>, protects: seq<nat>, h: Holdings)
    requires Balanced(groups, protects, h)
    ensures Balanced(groups + [1], protects, h.(groups := h.groups + 1, rawGroups := h.rawGroups + multiset{h.groups}))
  {
    hide Total;
    TotalPositive(h.home, protects, h.groups);
    assert Total(h.home, protects, h.groups) == 0;
  }

  lemma NewContextBalanced(groups: seq<nat>, protects: seq<nat>, h: Holdings, g: nat)
    requires Balanced(groups, protects, h) && g < |groups|
    ensures Balanced(groups, protects + [0], h.(home := h.home + [g]))
  {
    hide Total;
    forall k ensures Total(h.home + [g], protects + [0], k) == Total(h.home, protects, k) {
      TotalAppend(h.home, protects, k, g);
    }
    assert Retains(h, |h.home|) == 0;
  }

  // ----- The calls of the API and of JSRetainPtr

  datatype Op =
    | GroupCreate
    | GroupRetain(g: nat)
    | GroupRelease(g: nat)
    | ContextCreate(group: Option<nat>)
    | ContextRetain(c: nat)
    | ContextRelease(c: nat)
    | Construct(x: Option<nat>)
    | ConstructAdopt(x: Option<nat>)
    | Copy(q: nat)
    | Destroy(p: nat)
    | Clear(p: nat)
    | LeakRef(p: nat)
    | Assign(p: nat, q: nat)
    | AssignRaw(p: nat, x: Option<nat>)
    | Adopt(p: nat, x: Option<nat>)
    | Swap(p: nat, q: nat)

  predicate Usable(h: Holdings, p: nat) {
    p < |h.pointers| && !h.pointers[p].Gone?
  }

  /** A context may be retained while its group lives. */
  predicate Retainable(h: Holdings, x: Option<nat>) {
    x.Some? ==> x.value < |h.home| && Alive(h, h.home[x.value])
  }

  /** What the API asks of its callers: to use live things and to give back only what they own. */
  predicate Permitted(h: Holdings, op: Op) {
    match op
    case GroupCreate => true
    case GroupRetain(g) => g < h.groups && Alive(h, g)
    case GroupRelease(g) => g in h.rawGroups
    case ContextCreate(group) => group.Some? ==> group.value < h.groups && Alive(h, group.value)
    case ContextRetain(c) => Retainable(h, Some(c))
    case ContextRelease(c) => c in h.rawContexts
    case Construct(x) => Retainable(h, x)
    case ConstructAdopt(x) => Owned(Target(x)) <= h.rawContexts
    case Copy(q) => Usable(h, q)
    case Destroy(p) => Usable(h, p)
    case Clear(p) => Usable(h, p)
    case LeakRef(p) => Usable(h, p)
    case Assign(p, q) => Usable(h, p) && Usable(h, q)
    case AssignRaw(p, x) => Usable(h, p) && Retainable(h, x)
    case Adopt(p, x) => Usable(h, p) && Owned(Target(x)) <= h.rawContexts
    case Swap(p, q) => Usable(h, p) && Usable(h, q)
  }

  /** What the client holds after a call; nothing here speaks of counts. */
  function Next(h: Holdings, op: Op): (h': Holdings)
    requires Permitted(h, op)
  {
    match op
    case GroupCreate => h.(groups := h.groups + 1, rawGroups := h.rawGroups + multiset{h.groups})
    case GroupRetain(g) => h.(rawGroups := h.rawGroups + multiset{g})
    case GroupRelease(g) => h.(rawGroups := h.rawGroups - multiset{g})
    case ContextCreate(None) =>
      h.(groups := h.groups + 1, home := h.home + [h.groups], rawContexts := h.rawContexts + multiset{|h.home|})
    case ContextCreate(Some(g)) => h.(home := h.home + [g], rawContexts := h.rawContexts + multiset{|h.home|})
    case ContextRetain(c) => h.(rawContexts := h.rawContexts + multiset{c})
    case ContextRelease(c) => h.(rawContexts := h.rawContexts - multiset{c})
    case Construct(x) => h.(pointers := h.pointers + [Target(x)])
    case ConstructAdopt(x) => h.(pointers := h.pointers + [Target(x)], rawContexts := h.rawContexts - Owned(Target(x)))
    case Copy(q) => h.(pointers := h.pointers + [h.pointers[q]])
    case Destroy(p) => h.(pointers := h.pointers[p := Gone])
    case Clear(p) => h.(pointers := h.pointers[p := Null])
    case LeakRef(p) => h.(pointers := h.pointers[p := Null], rawContexts := h.rawContexts + Owned(h.pointers[p]))
    case Assign(p, q) => h.(pointers := h.pointers[p := h.pointers[q]])
    case AssignRaw(p, x) => h.(pointers := h.pointers[p := Target(x)])
    case Adopt(p, x) => h.(pointers := h.pointers[p := Target(x)], rawContexts := h.rawContexts - Owned(Target(x)))
    case Swap(p, q) => h.(pointers := h.pointers[p := h.pointers[q]][q := h.pointers[p]])
  }

  ghost predicate Feasible(h: Holdings, ops: seq<Op>)
    decreases |ops|
  {
    ops != [] ==> Permitted(h, ops[0]) && Feasible(Next(h, ops[0]), ops[1..])
  }

  ghost function After(h: Holdings, ops: seq<Op>): (h': Holdings)
    requires Feasible(h, ops)
    decreases |ops|
  {
    if ops == [] then h else After(Next(h, ops[0]), ops[1..])
  }

  const NOTHING := Holdings(0, [], [], multiset{}, multiset{})

  lemma Cancel(m: multiset<nat>, a: multiset<nat>, b: multiset<nat>)
    ensures m - a + b - b == m - a && m + a - a == m && b <= m - a + b && a <= m + a
  {
  }

  class Engine {
    /** The reference count of each VM; zero once the VM is deleted. */
    var groups: seq<nat>
    /** The protect count of each context's global object. */
    var protects: seq<nat>
    var home: seq<nat>
    var pointers: seq<Pointer>
    ghost var rawGroups: multiset<nat>
    ghost var rawContexts: multiset<nat>

    ghost function Held(): (h: Holdings)
      reads this
    {
      Holdings(|groups|, home, pointers, rawGroups, rawContexts)
    }

    ghost predicate Valid()
      reads this
    {
      Balanced(groups, protects, Held())
    }

    constructor ()
      ensures Valid() && Held() == NOTHING
    {
      groups, protects, home, pointers := [], [], [], [];
      rawGroups, rawContexts := multiset{}, multiset{};
    }

    method CreateGroup() returns (g: nat)
      requires Valid()
      modifies this
      ensures Valid() && g == old(|groups|) && Held() == Next(old(Held()), GroupCreate)
    {
      g := |groups|;
      NewGroupBalanced(groups, protects, Held());
      groups := groups + [1];
      rawGroups := rawGroups + multiset{g};
    }

    method RetainGroup(g: nat)
      requires Valid() && g < |groups| && groups[g] > 0
      modifies this
      ensures Valid() && g in rawGroups && Held() == old(Held().(rawGroups := rawGroups + multiset{g}))
    {
      GroupRefBalanced(groups, protects, Held(), g);
      groups := groups[g := groups[g] + 1];
      rawGroups := rawGroups + multiset{g};
    }

    method ReleaseGroup(g: nat)
      requires Valid() && g in rawGroups
      modifies this
      ensures Valid() && Held() == old(Held().(rawGroups := rawGroups - multiset{g}))
    {
      GroupDerefBalanced(groups, protects, Held(), g);
      groups := groups[g := groups[g] - 1];
      rawGroups := rawGroups - multiset{g};
    }

    /** gcProtect and then a reference to the VM. */
    method RetainContext(c: nat)
      requires Valid() && c < |home| && groups[home[c]] > 0
      modifies this
      ensures Valid() && c in rawContexts && Held() == old(Held().(rawContexts := rawContexts + multiset{c}))
    {
      RetainBalanced(groups, protects, Held(), c);
      protects := protects[c := protects[c] + 1];
      groups := groups[home[c] := groups[home[c]] + 1];
      rawContexts := rawContexts + multiset{c};
    }

    /** Unprotect and then one reference to the VM less. */
    method ReleaseContext(c: nat)
      requires Valid() && c in rawContexts
      modifies this
      ensures Valid() && Held() == old(Held().(rawContexts := rawContexts - multiset{c}))
    {
      ReleaseBalanced(groups, protects, Held(), c);
      protects := protects[c := protects[c] - 1];
      groups := groups[home[c] := groups[home[c]] - 1];
      rawContexts := rawContexts - multiset{c};
    }

    /** A new context in a VM that a temporary holds; the caller becomes the owner of its first retain. */
    method CreateGlobalObject(vm: nat) returns (c: nat)
      requires Valid() && vm in rawGroups
      modifies this
      ensures Valid() && c == old(|home|)
      ensures Held() == old(Held().(home := home + [vm], rawContexts := rawContexts + multiset{|home|}))
    {
      hide Balanced;
      GroupDerefBalanced(groups, protects, Held(), vm);
      c := |home|;
      NewContextBalanced(groups, protects, Held(), vm);
      protects, home := protects + [0], home + [vm];
      RetainContext(c);
    }

    /** JSGlobalContextCreateInGroup: the VM is held by a temporary until the context has its own reference. */
    method CreateContext(group: Option<nat>) returns (c: nat)
      requires Valid() && Permitted(Held(), ContextCreate(group))
      modifies this
      ensures Valid() && c == old(|home|) && Held() == Next(old(Held()), ContextCreate(group))
    {
      hide Balanced, Alive;
      var vm;
      if group.Some? {
        vm := group.value;
        LivesIff(groups, protects, Held(), vm);
        RetainGroup(vm);
      } else {
        vm := CreateGroup();
      }
      assert rawGroups == old(rawGroups) + multiset{vm};
      c := CreateGlobalObject(vm);
      ReleaseGroup(vm);
      assert rawGroups == old(rawGroups);
    }

    /** JSRetain and JSRelease as JSRetainPtr calls them, on pointers that may be null. */
    method RetainIfAny(x: Pointer)
      requires Valid() && (x.To? ==> x.context < |home| && groups[home[x.context]] > 0)
      modifies this
      ensures Valid() && Owned(x) <= rawContexts && Held() == old(Held().(rawContexts := rawContexts + Owned(x)))
    {
      if x.To? {
        RetainContext(x.context);
      }
    }

    method ReleaseIfAny(x: Pointer)
      requires Valid() && Owned(x) <= rawContexts
      modifies this
      ensures Valid() && Held() == old(Held().(rawContexts := rawContexts - Owned(x)))
    {
      if x.To? {
        assert Owned(x)[x.context] == 1;
        ReleaseContext(x.context);
      }
    }

    /** Assigning m_ptr: the pointer takes over one retain and its old one is the caller's. */
    method Store(p: nat, x: Pointer)
      requires Valid() && p < |pointers| && Owned(x) <= rawContexts
      modifies this
      ensures Valid() && groups == old(groups) && Held() == Exchange(old(Held()), p, x)
    {
      ExchangeBalanced(groups, protects, Held(), p, x);
      rawContexts := rawContexts - Owned(x) + Owned(pointers[p]);
      pointers := pointers[p := x];
    }

    method Append(x: Pointer) returns (p: nat)
      requires Valid() && Owned(x) <= rawContexts
      modifies this
      ensures Valid() && p == old(|pointers|)
      ensures Held() == old(Held().(pointers := pointers + [x], rawContexts := rawContexts - Owned(x)))
    {
      p := |pointers|;
      AppendBalanced(groups, protects, Held(), x);
      rawContexts := rawContexts - Owned(x);
      pointers := pointers + [x];
    }

    /** m_ptr takes over one retain and its old one is given back. */
    method Replace(p: nat, x: Pointer)
      requires Valid() && p < |pointers| && Owned(x) <= rawContexts
      modifies this
      ensures Valid() && Held() == old(Held().(pointers := pointers[p := x], rawContexts := rawContexts - Owned(x)))
    {
      hide Balanced, Owned;
      var ptr := pointers[p];
      Store(p, x);
      Cancel(old(rawContexts), Owned(x), Owned(ptr));
      ReleaseIfAny(ptr);
    }

    /** Construction from a raw pointer. */
    method ConstructPointer(x: Option<nat>) returns (p: nat)
      requires Valid() && Permitted(Held(), Construct(x))
      modifies this
      ensures Valid() && p == old(|pointers|) && Held() == Next(old(Held()), Construct(x))
    {
      hide Balanced, Alive;
      RetainableLives(x);
      RetainIfAny(Target(x));
      p := Append(Target(x));
    }

    lemma RetainableLives(x: Option<nat>)
      requires Valid() && Retainable(Held(), x)
      ensures x.Some? ==> x.value < |home| && home[x.value] < |groups| && groups[home[x.value]] > 0
    {
      if x.Some? {
        LivesIff(groups, protects, Held(), home[x.value]);
      }
    }

    /** A context that a pointer holds is in a live group. */
    lemma PointedLives(p: nat)
      requires Valid() && p < |pointers|
      ensures pointers[p].To? ==> Retainable(Held(), Some(pointers[p].context))
    {
      if pointers[p].To? {
        assert pointers[p] in multiset(pointers);
        assert Retains(Held(), pointers[p].context) > 0;
      }
    }

    method ConstructAdopted(x: Option<nat>) returns (p: nat)
      requires Valid() && Permitted(Held(), ConstructAdopt(x))
      modifies this
      ensures Valid() && p == old(|pointers|) && Held() == Next(old(Held()), ConstructAdopt(x))
    {
      hide Balanced;
      p := Append(Target(x));
    }

    method CopyPointer(q: nat) returns (p: nat)
      requires Valid() && Permitted(Held(), Copy(q))
      modifies this
      ensures Valid() && p == old(|pointers|) && Held() == Next(old(Held()), Copy(q))
    {
      hide Balanced, Alive;
      var x := pointers[q];
      PointedLives(q);
      if x.To? {
        RetainableLives(Some(x.context));
      }
      RetainIfAny(x);
      p := Append(x);
    }

    method DestroyPointer(p: nat)
      requires Valid() && Permitted(Held(), Destroy(p))
      modifies this
      ensures Valid() && Held() == Next(old(Held()), Destroy(p))
    {
      hide Balanced;
      Replace(p, Gone);
    }

    method ClearPointer(p: nat)
      requires Valid() && Permitted(Held(), Clear(p))
      modifies this
      ensures Valid() && Held() == Next(old(Held()), Clear(p))
    {
      hide Balanced;
      var x := pointers[p];
      if x.To? {
        Replace(p, Null);
      }
    }

    method LeakPointer(p: nat) returns (x: Pointer)
      requires Valid() && Permitted(Held(), LeakRef(p))
      modifies this
      ensures Valid() && x == old(pointers[p]) && Held() == Next(old(Held()), LeakRef(p))
    {
      hide Balanced;
      x := pointers[p];
      Store(p, Null);
    }

    /** Assignment between pointers: the new target is retained before the old one is released, which self-assignment needs. */
    method AssignPointer(p: nat, q: nat)
      requires Valid() && Permitted(Held(), Assign(p, q))
      modifies this
      ensures Valid() && Held() == Next(old(Held()), Assign(p, q))
    {
      hide Balanced, Alive;
      var optr := pointers[q];
      PointedLives(q);
      if optr.To? {
        RetainableLives(Some(optr.context));
      }
      RetainIfAny(optr);
      Cancel(old(rawContexts), Owned(optr), Owned(optr));
      Replace(p, optr);
    }

    method AssignContext(p: nat, x: Option<nat>)
      requires Valid() && Permitted(Held(), AssignRaw(p, x))
      modifies this
      ensures Valid() && Held() == Next(old(Held()), AssignRaw(p, x))
    {
      hide Balanced, Alive;
      RetainableLives(x);
      RetainIfAny(Target(x));
      Cancel(old(rawContexts), Owned(Target(x)), Owned(Target(x)));
      Replace(p, Target(x));
    }

    method AdoptContext(p: nat, x: Option<nat>)
      requires Valid() && Permitted(Held(), Adopt(p, x))
      modifies this
      ensures Valid() && Held() == Next(old(Held()), Adopt(p, x))
    {
      hide Balanced;
      Replace(p, Target(x));
    }

    method SwapPointers(p: nat, q: nat)
      requires Valid() && Permitted(Held(), Swap(p, q))
      modifies this
      ensures Valid() && Held() == Next(old(Held()), Swap(p, q))
    {
      hide Balanced;
      SwapBalanced(groups, protects, Held(), p, q);
      pointers := pointers[p := pointers[q]][q := pointers[p]];
    }

    /** One call of the API. */
    method Perform(op: Op)
      requires Valid() && Permitted(Held(), op)
      modifies this
      ensures Valid() && Held() == Next(old(Held()), op)
    {
      hide Balanced, Alive;
      match op {
        case GroupCreate => var _ := CreateGroup();
        case GroupRetain(g) => LivesIff(groups, protects, Held(), g); RetainGroup(g);
        case GroupRelease(g) => ReleaseGroup(g);
        case ContextCreate(group) => var _ := CreateContext(group);
        case ContextRetain(c) => RetainableLives(Some(c)); RetainContext(c);
        case ContextRelease(c) => ReleaseContext(c);
        case Construct(x) => var _ := ConstructPointer(x);
        case ConstructAdopt(x) => var _ := ConstructAdopted(x);
        case Copy(q) => var _ := CopyPointer(q);
        case Destroy(p) => DestroyPointer(p);
        case Clear(p) => ClearPointer(p);
        case LeakRef(p) => var _ := LeakPointer(p);
        case Assign(p, q) => AssignPointer(p, q);
        case AssignRaw(p, x) => AssignContext(p, x);
        case Adopt(p, x) => AdoptContext(p, x);
        case Swap(p, q) => SwapPointers(p, q);
      }
    }

    /**
     * Any sequence of calls: at the end a group's count is its own retains plus those of its contexts,
     * a protect count is the retains of its context, and the live groups are the retained ones.
     */
    method PerformAll(ops: seq<Op>)
      requires Valid() && Feasible(Held(), ops)
      modifies this
      ensures Valid() && Held() == After(old(Held()), ops)
      ensures forall g :: 0 <= g < |groups| ==> (groups[g] > 0 <==> Alive(Held(), g))
    {
      hide Balanced, Alive, Permitted, Next;
      var i := 0;
      while i < |ops|
        invariant i <= |ops| && Valid() && Feasible(Held(), ops[i..])
        invariant After(Held(), ops[i..]) == After(old(Held()), ops)
      {
        assert ops[i..][1..] == ops[i + 1..];
        Perform(ops[i]);
        i := i + 1;
      }
      forall g | 0 <= g < |groups| ensures groups[g] > 0 <==> Alive(Held(), g) {
        LivesIff(groups, protects, Held(), g);
      }
    }
  }

  // ----- Dead groups

  /** Somebody retains the context. */
  predicate Mentions(pointers: seq<Pointer>, raw: multiset<nat>, c: nat) {
    c in raw || To(c) in pointers
  }

  lemma MentionsIff(h: Holdings, c: nat)
    ensures Retains(h, c) > 0 <==> Mentions(h.pointers, h.rawContexts, c)
  {
    assert To(c) in multiset(h.pointers) <==> To(c) in h.pointers;
  }

  /** The call retains a context that may not have been retained before. */
  predicate Takes(h: Holdings, op: Op, c: nat) {
    match op
    case ContextCreate(_) => c == |h.home|
    case ContextRetain(d) => c == d
    case Construct(x) => x == Some(c)
    case AssignRaw(_, x) => x == Some(c)
    case _ => false
  }

  lemma PointerSet(pointers: seq<Pointer>, p: nat, x: Pointer, c: nat)
    requires p < |pointers|
    ensures To(c) in pointers[p := x] ==> To(c) in pointers || x == To(c)
  {
  }

  lemma OwnedMoves(raw: multiset<nat>, x: Pointer, c: nat)
    ensures c in raw + Owned(x) ==> c in raw || x == To(c)
    ensures Owned(x) <= raw && x == To(c) ==> c in raw
  {
    assert c in Owned(x) <==> x == To(c);
  }

  /** Nobody comes to retain a context but by taking it or from somebody who did. */
  lemma NextMentions(h: Holdings, op: Op, c: nat)
    requires Permitted(h, op)
    ensures var r := Next(h, op); Mentions(r.pointers, r.rawContexts, c) ==> Mentions(h.pointers, h.rawContexts, c) || Takes(h, op, c)
  {
    hide Alive, Owned;
    var ps, raw := h.pointers, h.rawContexts;
    match op
    case ConstructAdopt(x) => OwnedMoves(raw, Target(x), c);
    case Destroy(p) => PointerSet(ps, p, Gone, c);
    case Clear(p) => PointerSet(ps, p, Null, c);
    case LeakRef(p) =>
      PointerSet(ps, p, Null, c);
      OwnedMoves(raw, ps[p], c);
    case Assign(p, q) => PointerSet(ps, p, ps[q], c);
    case AssignRaw(p, x) => PointerSet(ps, p, Target(x), c);
    case Adopt(p, x) =>
      PointerSet(ps, p, Target(x), c);
      OwnedMoves(raw, Target(x), c);
    case Swap(p, q) =>
      PointerSet(ps, p, ps[q], c);
      PointerSet(ps[p := ps[q]], q, ps[p], c);
    case _ =>
  }

  lemma NextWellFormed(h: Holdings, op: Op)
    requires WellFormed(h) && Permitted(h, op)
    ensures WellFormed(Next(h, op))
  {
    var r := Next(h, op);
    assert Within(r.pointers, r.rawContexts, |r.home|) by {
      forall c: nat | Mentions(r.pointers, r.rawContexts, c) ensures c < |r.home| {
        MentionedNext(h, op, c);
      }
      WithinMentioned(r.pointers, r.rawContexts, |r.home|);
    }
    hide Alive, Within, Owned;
  }

  lemma MentionedNext(h: Holdings, op: Op, c: nat)
    requires WellFormed(h) && Permitted(h, op) && Mentions(Next(h, op).pointers, Next(h, op).rawContexts, c)
    ensures c < |Next(h, op).home|
  {
    hide Alive, Mentions, Owned;
    NextMentions(h, op, c);
    if Mentions(h.pointers, h.rawContexts, c) {
      MentionedWithin(h.pointers, h.rawContexts, |h.home|, c);
    }
  }

  lemma MentionedWithin(pointers: seq<Pointer>, raw: multiset<nat>, n: nat, c: nat)
    requires Within(pointers, raw, n) && Mentions(pointers, raw, c)
    ensures c < n
  {
  }

  lemma WithinMentioned(pointers: seq<Pointer>, raw: multiset<nat>, n: nat)
    requires forall c: nat :: Mentions(pointers, raw, c) ==> c < n
    ensures Within(pointers, raw, n)
  {
    forall p | 0 <= p < |pointers| && pointers[p].To? ensures pointers[p].context < n {
      assert To(pointers[p].context) in pointers;
      assert Mentions(pointers, raw, pointers[p].context);
    }
    forall c | c in raw ensures c < n {
      assert Mentions(pointers, raw, c);
    }
  }

  /** No call gives a retain to a context of a dead group. */
  lemma NextUnretained(h: Holdings, op: Op, c: nat)
    requires WellFormed(h) && Permitted(h, op) && c < |h.home| && !Alive(h, h.home[c])
    ensures Retains(Next(h, op), c) == 0
  {
    hide Mentions, Retains, WellFormed;
    MentionsIff(h, c);
    MentionsIff(Next(h, op), c);
    NextMentions(h, op, c);
  }

  lemma DeadStays(h: Holdings, op: Op, g: nat)
    requires WellFormed(h) && Permitted(h, op) && g < h.groups && !Alive(h, g)
    ensures g < Next(h, op).groups && !Alive(Next(h, op), g)
  {
    hide Retains;
    forall c | 0 <= c < |Next(h, op).home| && Next(h, op).home[c] == g ensures Retains(Next(h, op), c) == 0 {
      NextUnretained(h, op, c);
    }
  }

  /** A group that has died is never used again, whatever calls follow. */
  lemma {:induction false} DeadForever(h: Holdings, ops: seq<Op>, g: nat)
    requires WellFormed(h) && Feasible(h, ops) && g < h.groups && !Alive(h, g)
    ensures !Alive(After(h, ops), g)
    decreases |ops|
  {
    hide Alive, Permitted, Next, WellFormed;
    if ops != [] {
      NextWellFormed(h, ops[0]);
      DeadStays(h, ops[0], g);
      DeadForever(Next(h, ops[0]), ops[1..], g);
    }
  }
}
