/** Capability negotiation of the WebDriver service: validating, merging, matching and parsing. */
module Capabilities {
  import opened Wrappers
  import opened Json

  const INT_MAX := 0x7fff_ffff

  datatype PageLoadStrategy = Never | Normal | Eager

  datatype UnhandledPromptBehavior = Dismiss | Accept | DismissAndNotify | AcceptAndNotify | Ignore

  /** Timeouts in milliseconds. */
  datatype Timeouts = Timeouts(script: Option<nat>, pageLoad: Option<nat>, implicit: Option<nat>)

  datatype Capabilities = Capabilities(
    browserName: Option<string>,
    browserVersion: Option<string>,
    platformName: Option<string>,
    acceptInsecureCerts: Option<bool>,
    setWindowRect: Option<bool>,
    timeouts: Option<Timeouts>,
    pageLoadStrategy: Option<PageLoadStrategy>,
    unhandledPromptBehavior: Option<UnhandledPromptBehavior>
  )

  /** What the port supplies: its own capabilities and the hooks the service calls. */
  datatype Platform = Platform(
    own: Capabilities,
    validates: (string, Json) -> bool,
    mismatch: (string, Json) -> Option<string>,
    sameVersion: (string, string) -> bool
  )

  // ----- Deserializers

  /** integerValue: a double counts only when it is a whole number. */
  function IntegerValue(v: Json): (r: Option<int>)
  {
    match AsInteger(v)
    case None => None
    case Some(i) => if v.Double? && v.d != i as real then None else Some(i)
  }

  function Milliseconds(v: Json): (r: Option<nat>)
  {
    match IntegerValue(v)
    case None => None
    case Some(i) => if 0 <= i <= INT_MAX then Some(i) else None
  }

  predicate TimeoutField(key: string, v: Json) {
    key == "sessionId" || (key in {"script", "pageLoad", "implicit"} && Milliseconds(v).Some?)
  }

  function Timeout(o: Fields, key: string): (r: Option<nat>)
  {
    if key in o then Milliseconds(o[key]) else None
  }

  /** The timeouts an object stands for: every field other than "sessionId" has to be one. */
  function ReadTimeouts(o: Fields): (r: Option<Timeouts>)
  {
    if forall key :: key in o ==> TimeoutField(key, o[key]) then
      Some(Timeouts(Timeout(o, "script"), Timeout(o, "pageLoad"), Timeout(o, "implicit")))
    else None
  }

  /** deserializeTimeouts, over the fields in any order. */
  method DeserializeTimeouts(o: Fields) returns (r: Option<Timeouts>)
    ensures r == ReadTimeouts(o)
  {
    var script, pageLoad, implicit: Option<nat> := None, None, None;
    var rest := o.Keys;
    while rest != {}
      invariant rest <= o.Keys
      invariant forall key :: key in o.Keys - rest ==> TimeoutField(key, o[key])
      invariant script == if "script" in rest then None else Timeout(o, "script")
      invariant pageLoad == if "pageLoad" in rest then None else Timeout(o, "pageLoad")
      invariant implicit == if "implicit" in rest then None else Timeout(o, "implicit")
    {
      var key :| key in rest;
      rest := rest - {key};
      if key != "sessionId" {
        var timeout := Milliseconds(o[key]);
        if timeout.None? {
          return None;
        }
        if key == "script" {
          script := timeout;
        } else if key == "pageLoad" {
          pageLoad := timeout;
        } else if key == "implicit" {
          implicit := timeout;
        } else {
          return None;
        }
      }
    }
    return Some(Timeouts(script, pageLoad, implicit));
  }

  function ReadStrategy(s: string): (r: Option<PageLoadStrategy>)
  {
    if s == "none" then Some(Never)
    else if s == "normal" then Some(Normal)
    else if s == "eager" then Some(Eager)
    else None
  }

  function ReadBehavior(s: string): (r: Option<UnhandledPromptBehavior>)
  {
    if s == "dismiss" then Some(Dismiss)
    else if s == "accept" then Some(Accept)
    else if s == "dismiss and notify" then Some(DismissAndNotify)
    else if s == "accept and notify" then Some(AcceptAndNotify)
    else if s == "ignore" then Some(Ignore)
    else None
  }

  // ----- Validation

  /** A value the service may keep under a key: of the right type and, where it is read later, readable. */
  predicate Valid(port: Platform, key: string, v: Json) {
    if key == "acceptInsecureCerts" then v.Bool?
    else if key == "browserName" || key == "browserVersion" || key == "platformName" then v.Str?
    else if key == "pageLoadStrategy" then v.Str? && ReadStrategy(v.s).Some?
    else if key == "proxy" then true
    else if key == "timeouts" then v.Object? && ReadTimeouts(v.fields).Some?
    else if key == "unhandledPromptBehavior" then v.Str? && ReadBehavior(v.s).Some?
    else ':' in key && port.validates(key, v)
  }

  /** Validation drops nulls and the proxy and refuses the whole object for one bad field. */
  function Validated(port: Platform, o: Fields): (r: Option<Fields>)
  {
    if forall key :: key in o ==> o[key].Null? || Valid(port, key, o[key]) then
      Some(map key | key in o && !o[key].Null? && key != "proxy" :: o[key])
    else None
  }

  /** What validation keeps of one field that is not null. */
  method ValidatedField(port: Platform, key: string, v: Json) returns (valid: bool, kept: Option<Json>)
    ensures valid <==> Valid(port, key, v)
    ensures valid ==> kept == if key == "proxy" then None else Some(v)
  {
    if key == "acceptInsecureCerts" {
      if !v.Bool? {
        return false, None;
      }
      return true, Some(Bool(v.b));
    } else if key == "browserName" || key == "browserVersion" || key == "platformName" {
      if !v.Str? {
        return false, None;
      }
      return true, Some(Str(v.s));
    } else if key == "pageLoadStrategy" {
      if !v.Str? || ReadStrategy(v.s).None? {
        return false, None;
      }
      return true, Some(Str(v.s));
    } else if key == "proxy" {
      return true, None;
    } else if key == "timeouts" {
      if !v.Object? {
        return false, None;
      }
      var timeouts := DeserializeTimeouts(v.fields);
      return timeouts.Some?, Some(v);
    } else if key == "unhandledPromptBehavior" {
      if !v.Str? || ReadBehavior(v.s).None? {
        return false, None;
      }
      return true, Some(Str(v.s));
    } else if ':' in key {
      return port.validates(key, v), Some(v);
    } else {
      return false, None;
    }
  }

  /** validatedCapabilities, over the fields in any order. */
  method ValidatedCapabilities(port: Platform, o: Fields) returns (r: Option<Fields>)
    ensures r == Validated(port, o)
  {
    hide Valid;
    var result: Fields := map[];
    var rest := o.Keys;
    while rest != {}
      invariant rest <= o.Keys
      invariant forall key :: key in o.Keys - rest ==> o[key].Null? || Valid(port, key, o[key])
      invariant result == map key | key in o && key !in rest && !o[key].Null? && key != "proxy" :: o[key]
    {
      var key :| key in rest;
      if !o[key].Null? {
        var valid, kept := ValidatedField(port, key, o[key]);
        if !valid {
          return None;
        }
        if kept.Some? {
          result := result[key := kept.value];
        }
      }
      rest := rest - {key};
    }
    assert result == map key | key in o && !o[key].Null? && key != "proxy" :: o[key];
    return Some(result);
  }

  // ----- Merging

  method MergeCapabilities(required: Fields, firstMatch: Fields) returns (result: Fields)
    ensures result == required + firstMatch
  {
    result := map[];
    var rest := required.Keys;
    while rest != {}
      invariant rest <= required.Keys
      invariant result == map key | key in required && key !in rest :: required[key]
    {
      var key :| key in rest;
      result := result[key := required[key]];
      rest := rest - {key};
    }
    assert result == required;
    rest := firstMatch.Keys;
    while rest != {}
      invariant rest <= firstMatch.Keys
      invariant result == required + map key | key in firstMatch && key !in rest :: firstMatch[key]
    {
      var key :| key in rest;
      result := result[key := firstMatch[key]];
      rest := rest - {key};
    }
    assert firstMatch == map key | key in firstMatch && key !in rest :: firstMatch[key];
  }

  // ----- Matching

  function LowerCase(c: char): (r: char)
  {
    if 'A' <= c <= 'Z' then c + ' ' else c
  }

  predicate EqualIgnoringCase(s: string, t: string) {
    |s| == |t| && forall i :: 0 <= i < |s| ==> LowerCase(s[i]) == LowerCase(t[i])
  }

  /** The capabilities of the port as a JSON object. */
  function Base(port: Platform): (o: Fields)
  {
    With(With(With(With(With(map[],
      "browserName", StrOption(port.own.browserName)),
      "browserVersion", StrOption(port.own.browserVersion)),
      "platformName", StrOption(port.own.platformName)),
      "acceptInsecureCerts", BoolOption(port.own.acceptInsecureCerts)),
      "setWindowRect", BoolOption(port.own.setWindowRect))
  }

  function With(o: Fields, key: string, v: Option<Json>): (r: Fields)
  {
    if v.Some? then o[key := v.value] else o
  }

  function StrOption(v: Option<string>): (r: Option<Json>)
  {
    if v.Some? then Some(Str(v.value)) else None
  }

  function BoolOption(v: Option<bool>): (r: Option<Json>)
  {
    if v.Some? then Some(Bool(v.value)) else None
  }

  /** Why a validated capability cannot be met; a port that does not know its own value meets any. */
  function Mismatch(port: Platform, key: string, v: Json): (r: Option<string>)
    requires Valid(port, key, v)
  {
    if key == "browserName" && port.own.browserName.Some? then
      if EqualIgnoringCase(port.own.browserName.value, v.s) then None
      else Some("expected browserName " + port.own.browserName.value + " but got " + v.s)
    else if key == "browserVersion" && port.own.browserVersion.Some? then
      if port.sameVersion(v.s, port.own.browserVersion.value) then None
      else Some("requested browserVersion is " + v.s + " but actual version is " + port.own.browserVersion.value)
    else if key == "platformName" && port.own.platformName.Some? then
      if EqualIgnoringCase(v.s, "any") || EqualIgnoringCase(port.own.platformName.value, v.s) then None
      else Some("expected platformName " + port.own.platformName.value + " but got " + v.s)
    else if key == "acceptInsecureCerts" && port.own.acceptInsecureCerts.Some? then
      if v.b && !port.own.acceptInsecureCerts.value then Some("browser doesn't accept insecure TLS certificates")
      else None
    else if key == "proxy" then None
    else port.mismatch(key, v)
  }

  predicate AllValid(port: Platform, o: Fields) {
    forall key :: key in o ==> Valid(port, key, o[key])
  }

  predicate Meets(port: Platform, o: Fields) {
    forall key :: key in o ==> Valid(port, key, o[key]) && Mismatch(port, key, o[key]).None?
  }

  /** matchCapabilities: the port's values overridden by the request, or the complaint about one field. */
  method MatchCapabilities(port: Platform, merged: Fields) returns (r: Option<Fields>, error: Option<string>)
    requires AllValid(port, merged)
    ensures r == if Meets(port, merged) then Some(Base(port) + merged) else None
    ensures r.None? ==> exists key :: key in merged && error == Mismatch(port, key, merged[key]) && error.Some?
  {
    hide Base, Mismatch, Valid;
    var matched := Base(port);
    var rest := merged.Keys;
    while rest != {}
      invariant rest <= merged.Keys
      invariant forall key :: key in merged.Keys - rest ==> Mismatch(port, key, merged[key]).None?
      invariant matched == Base(port) + map key | key in merged && key !in rest :: merged[key]
    {
      var key :| key in rest;
      error := Mismatch(port, key, merged[key]);
      if error.Some? {
        return None, error;
      }
      matched := matched[key := merged[key]];
      rest := rest - {key};
    }
    assert merged == map key | key in merged && key !in rest :: merged[key];
    return Some(matched), None;
  }

  // ----- The whole negotiation

  datatype Failure =
    | NoCapabilities
    | AlwaysMatchNotObject
    | AlwaysMatchInvalid
    | FirstMatchNotList
    | FirstMatchEntryNotObject
    | FirstMatchInvalid
    | Shadowed(key: string)
    | Unmatched(reason: Option<string>)

  /** alwaysMatch, an empty object when it is missing. */
  function AlwaysMatch(c: Fields): (r: Option<Fields>)
  {
    if "alwaysMatch" !in c then Some(map[]) else GetObject(c, "alwaysMatch")
  }

  /** firstMatch, one empty object when it is missing. */
  function FirstMatch(c: Fields): (r: Option<seq<Json>>)
  {
    if "firstMatch" !in c then Some([Object(map[])]) else GetArray(c, "firstMatch")
  }

  /** One entry of firstMatch stands for valid capabilities that repeat none of alwaysMatch. */
  predicate Offers(port: Platform, entry: Json, required: Fields, o: Fields) {
    entry.Object? && Validated(port, entry.fields) == Some(o) && o.Keys !! required.Keys
  }

  ghost predicate Hopeless(port: Platform, entry: Json, required: Fields) {
    forall o :: !Offers(port, entry, required, o)
  }

  /** The request is well formed, `required` is its validated alwaysMatch and `offers` its validated firstMatch. */
  predicate Prepared(port: Platform, parameters: Fields, required: Fields, offers: seq<Fields>) {
    && GetObject(parameters, "capabilities").Some?
    && var c := GetObject(parameters, "capabilities").value;
    && AlwaysMatch(c).Some? && Validated(port, AlwaysMatch(c).value) == Some(required)
    && FirstMatch(c).Some? && |offers| == |FirstMatch(c).value|
    && forall i :: 0 <= i < |offers| ==> Offers(port, FirstMatch(c).value[i], required, offers[i])
  }

  /** The first offer that can be met together with the required capabilities. */
  predicate Chosen(port: Platform, required: Fields, offers: seq<Fields>, i: nat) {
    && i < |offers| && Meets(port, required + offers[i])
    && forall j :: 0 <= j < i ==> !Meets(port, required + offers[j])
  }

  ghost predicate Negotiates(port: Platform, parameters: Fields, result: Fields) {
    exists required, offers, i: nat ::
      Prepared(port, parameters, required, offers) && Chosen(port, required, offers, i) &&
      result == Base(port) + (required + offers[i])
  }

  /** What a failure says about an entry of firstMatch. */
  predicate Faults(port: Platform, entry: Json, required: Fields, f: Failure) {
    match f
    case FirstMatchEntryNotObject => !entry.Object?
    case FirstMatchInvalid => entry.Object? && Validated(port, entry.fields).None?
    case Shadowed(key) =>
      entry.Object? && Validated(port, entry.fields).Some? && key in Validated(port, entry.fields).value && key in required
    case _ => false
  }

  /** The failure is about the first entry that is not acceptable. */
  ghost predicate FirstFault(port: Platform, list: seq<Json>, required: Fields, i: nat, f: Failure) {
    && i < |list| && Hopeless(port, list[i], required) && Faults(port, list[i], required, f)
    && forall j :: 0 <= j < i ==> !Hopeless(port, list[j], required)
  }

  /** The reason names a field of an offer that cannot be met. */
  ghost predicate Justified(port: Platform, required: Fields, offers: seq<Fields>, reason: Option<string>) {
    exists i: nat, key ::
      i < |offers| && key in required + offers[i] && Valid(port, key, (required + offers[i])[key]) &&
      reason == Mismatch(port, key, (required + offers[i])[key])
  }

  /** What a failure says about the request: the first thing wrong with it, in the order of the steps. */
  ghost predicate Explains(port: Platform, parameters: Fields, f: Failure) {
    if f.NoCapabilities? then GetObject(parameters, "capabilities").None?
    else
      && GetObject(parameters, "capabilities").Some?
      && var c := GetObject(parameters, "capabilities").value;
      if f.AlwaysMatchNotObject? then AlwaysMatch(c).None?
      else
        && AlwaysMatch(c).Some?
        && var required := Validated(port, AlwaysMatch(c).value);
        if f.AlwaysMatchInvalid? then required.None?
        else
          && required.Some?
          && if f.FirstMatchNotList? then FirstMatch(c).None?
             else
               && FirstMatch(c).Some?
               && var list := FirstMatch(c).value;
               if f.Unmatched? then
                 && (f.reason.None? <==> list == [])
                 && exists offers :: Prepared(port, parameters, required.value, offers) &&
                      (f.reason.Some? ==> Justified(port, required.value, offers, f.reason))
               else exists i :: FirstFault(port, list, required.value, i, f)
  }

  lemma ValidatedAllValid(port: Platform, o: Fields, v: Fields)
    requires Validated(port, o) == Some(v)
    ensures AllValid(port, v)
  {
    hide Valid;
  }

  lemma MergedAllValid(port: Platform, v: Fields, w: Fields)
    requires AllValid(port, v) && AllValid(port, w)
    ensures AllValid(port, v + w)
  {
    hide Valid;
  }

  /** A request can be prepared in one way only. */
  lemma PreparedUnique(port: Platform, parameters: Fields, r: Fields, offers: seq<Fields>, r': Fields, offers': seq<Fields>)
    requires Prepared(port, parameters, r, offers) && Prepared(port, parameters, r', offers')
    ensures r == r' && offers == offers'
  {
    hide Validated;
    var list := FirstMatch(GetObject(parameters, "capabilities").value).value;
    forall i | 0 <= i < |offers| ensures offers[i] == offers'[i] {
      assert Offers(port, list[i], r, offers[i]) && Offers(port, list[i], r', offers'[i]);
    }
  }

  /** The check that no key of an entry is also required. */
  method FindShadowed(entry: Fields, required: Fields) returns (r: Option<string>)
    ensures r.None? <==> entry.Keys !! required.Keys
    ensures r.Some? ==> r.value in entry && r.value in required
  {
    var rest := entry.Keys;
    while rest != {}
      invariant rest <= entry.Keys && (entry.Keys - rest) !! required.Keys
    {
      var key :| key in rest;
      if key in required {
        return Some(key);
      }
      rest := rest - {key};
    }
    return None;
  }

  /** Steps 4 and 5: validate every entry of firstMatch, or say what is wrong with one. */
  method ValidateOffers(port: Platform, list: seq<Json>, required: Fields) returns (r: Option<seq<Fields>>, calls: seq<Failure>)
    ensures r.Some? <==> calls == []
    ensures r.None? <==> |calls| == 1
    ensures r.Some? ==> |r.value| == |list| && forall i :: 0 <= i < |list| ==> Offers(port, list[i], required, r.value[i])
    ensures r.None? ==> exists i :: FirstFault(port, list, required, i, calls[0])
  {
    hide Validated;
    var offers: seq<Fields> := [];
    var i := 0;
    while i < |list|
      invariant i == |offers| <= |list|
      invariant forall j :: 0 <= j < i ==> Offers(port, list[j], required, offers[j])
    {
      if !list[i].Object? {
        calls := [FirstMatchEntryNotObject];
        assert FirstFault(port, list, required, i, calls[0]);
        return None, calls;
      }
      var o := ValidatedCapabilities(port, list[i].fields);
      if o.None? {
        calls := [FirstMatchInvalid];
        assert FirstFault(port, list, required, i, calls[0]);
        return None, calls;
      }
      var key := FindShadowed(o.value, required);
      if key.Some? {
        calls := [Shadowed(key.value)];
        assert FirstFault(port, list, required, i, calls[0]);
        return None, calls;
      }
      offers := offers + [o.value];
      i := i + 1;
    }
    return Some(offers), [];
  }

  /** Step 6: try the offers in order. */
  method ChooseOffer(port: Platform, required: Fields, offers: seq<Fields>) returns (r: Option<Fields>, calls: seq<Failure>)
    requires AllValid(port, required) && forall i :: 0 <= i < |offers| ==> AllValid(port, offers[i])
    ensures r.Some? <==> calls == []
    ensures r.None? <==> |calls| == 1
    ensures r.Some? ==> exists i: nat :: Chosen(port, required, offers, i) && r.value == Base(port) + (required + offers[i])
    ensures r.None? ==> forall i :: 0 <= i < |offers| ==> !Meets(port, required + offers[i])
    ensures r.None? ==> calls[0].Unmatched? && (calls[0].reason.None? <==> offers == [])
    ensures r.None? && calls[0].reason.Some? ==> Justified(port, required, offers, calls[0].reason)
  {
    hide Base, Valid, Mismatch;
    var error: Option<string> := None;
    var i := 0;
    while i < |offers|
      invariant i <= |offers|
      invariant forall j :: 0 <= j < i ==> !Meets(port, required + offers[j])
      invariant error.None? <==> i == 0
      invariant error.Some? ==> Justified(port, required, offers, error)
    {
      var merged := MergeCapabilities(required, offers[i]);
      MergedAllValid(port, required, offers[i]);
      var matched, reason := MatchCapabilities(port, merged);
      if matched.Some? {
        assert Chosen(port, required, offers, i);
        return matched, [];
      }
      ghost var key :| key in merged && reason == Mismatch(port, key, merged[key]) && reason.Some?;
      assert merged == required + offers[i];
      error := reason;
      i := i + 1;
    }
    return None, [Unmatched(error)];
  }

  /**
   * processCapabilities. The completion handler is called exactly once when nothing is returned and
   * never otherwise, and what is returned is the port's values overridden by alwaysMatch joined with
   * the first entry of firstMatch that can be met.
   */
  method ProcessCapabilities(port: Platform, parameters: Fields) returns (r: Option<Fields>, calls: seq<Failure>)
    ensures r.Some? <==> calls == []
    ensures r.None? <==> |calls| == 1
    ensures r.Some? ==> Negotiates(port, parameters, r.value)
    ensures r.None? ==> Explains(port, parameters, calls[0]) && forall result :: !Negotiates(port, parameters, result)
  {
    hide Validated, AllValid, Base, Meets, Offers, Hopeless, AlwaysMatch, FirstMatch;
    var c := GetObject(parameters, "capabilities");
    if c.None? {
      return None, [NoCapabilities];
    }
    var always := AlwaysMatch(c.value);
    if always.None? {
      return None, [AlwaysMatchNotObject];
    }
    var required := ValidatedCapabilities(port, always.value);
    if required.None? {
      return None, [AlwaysMatchInvalid];
    }
    var list := FirstMatch(c.value);
    if list.None? {
      return None, [FirstMatchNotList];
    }
    var offers;
    offers, calls := ValidateOffers(port, list.value, required.value);
    if offers.None? {
      ghost var k: nat :| FirstFault(port, list.value, required.value, k, calls[0]);
      BadOffer(port, parameters, required.value, k);
      return None, calls;
    }
    assert Prepared(port, parameters, required.value, offers.value);
    PreparedValid(port, parameters, required.value, offers.value);
    r, calls := ChooseOffer(port, required.value, offers.value);
    if r.None? {
      NothingNegotiated(port, parameters, required.value, offers.value);
    } else {
      ghost var i: nat :| Chosen(port, required.value, offers.value, i) && r.value == Base(port) + (required.value + offers.value[i]);
    }
  }

  lemma PreparedValid(port: Platform, parameters: Fields, required: Fields, offers: seq<Fields>)
    requires Prepared(port, parameters, required, offers)
    ensures AllValid(port, required) && forall i :: 0 <= i < |offers| ==> AllValid(port, offers[i])
    ensures forall i :: 0 <= i < |offers| ==> offers[i].Keys !! required.Keys
  {
    hide Validated, AllValid;
    var c := GetObject(parameters, "capabilities").value;
    ValidatedAllValid(port, AlwaysMatch(c).value, required);
    forall i | 0 <= i < |offers| ensures AllValid(port, offers[i]) && offers[i].Keys !! required.Keys {
      assert Offers(port, FirstMatch(c).value[i], required, offers[i]);
      ValidatedAllValid(port, FirstMatch(c).value[i].fields, offers[i]);
    }
  }

  /** One bad entry of firstMatch ends the negotiation, wherever it stands. */
  lemma BadOffer(port: Platform, parameters: Fields, required: Fields, k: nat)
    requires GetObject(parameters, "capabilities").Some?
    requires var c := GetObject(parameters, "capabilities").value;
             && AlwaysMatch(c).Some? && Validated(port, AlwaysMatch(c).value) == Some(required)
             && FirstMatch(c).Some? && k < |FirstMatch(c).value| && Hopeless(port, FirstMatch(c).value[k], required)
    ensures forall result :: !Negotiates(port, parameters, result)
  {
    hide Base, Meets, Chosen, Validated, Offers, AlwaysMatch, FirstMatch;
  }

  lemma NothingNegotiated(port: Platform, parameters: Fields, required: Fields, offers: seq<Fields>)
    requires Prepared(port, parameters, required, offers)
    requires forall i :: 0 <= i < |offers| ==> !Meets(port, required + offers[i])
    ensures forall result :: !Negotiates(port, parameters, result)
  {
    hide Base, Meets, Prepared;
    forall result ensures !Negotiates(port, parameters, result) {
      if Negotiates(port, parameters, result) {
        var r', offers', i: nat :| Prepared(port, parameters, r', offers') && Chosen(port, r', offers', i) &&
          result == Base(port) + (r' + offers'[i]);
        PreparedUnique(port, parameters, required, offers, r', offers');
        assert false;
      }
    }
  }

  // ----- Parsing

  function Parse(m: Fields): (c: Capabilities)
  {
    Capabilities(
      GetString(m, "browserName"),
      GetString(m, "browserVersion"),
      GetString(m, "platformName"),
      GetBool(m, "acceptInsecureCerts"),
      GetBool(m, "setWindowRect"),
      match GetObject(m, "timeouts") { case Some(o) => ReadTimeouts(o) case None => None },
      match GetString(m, "pageLoadStrategy") { case Some(s) => ReadStrategy(s) case None => None },
      match GetString(m, "unhandledPromptBehavior") { case Some(s) => ReadBehavior(s) case None => None }
    )
  }

  /** The value a client gave for a key, null counting as none. */
  function Asked(o: Fields, key: string): (r: Option<Json>)
  {
    if key in o && !o[key].Null? then Some(o[key]) else None
  }

  /** Validation keeps exactly what was asked, but for the proxy, and validating again changes nothing. */
  lemma ValidatedKeeps(port: Platform, o: Fields, v: Fields)
    requires Validated(port, o) == Some(v)
    ensures forall key :: key != "proxy" ==> Asked(v, key) == Asked(o, key) && (key in v <==> Asked(o, key).Some?)
    ensures Validated(port, v) == Some(v)
  {
    hide Valid;
    assert v == map key | key in v && !v[key].Null? && key != "proxy" :: v[key];
  }

  /** The keys the port fills in. */
  lemma BaseKeys(port: Platform, key: string)
    requires key in {"timeouts", "pageLoadStrategy", "unhandledPromptBehavior"}
    ensures key !in Base(port)
  {
  }

  lemma BaseValues(port: Platform)
    ensures GetString(Base(port), "browserName") == port.own.browserName
    ensures GetString(Base(port), "browserVersion") == port.own.browserVersion
    ensures GetString(Base(port), "platformName") == port.own.platformName
    ensures GetBool(Base(port), "acceptInsecureCerts") == port.own.acceptInsecureCerts
    ensures GetBool(Base(port), "setWindowRect") == port.own.setWindowRect
  {
  }

  /** The types of the known keys, which parsing relies on. */
  predicate Typed(key: string, v: Json) {
    && key != "setWindowRect"
    && (key in {"browserName", "browserVersion", "platformName"} ==> v.Str?)
    && (key == "acceptInsecureCerts" ==> v.Bool?)
    && (key == "timeouts" ==> v.Object? && ReadTimeouts(v.fields).Some?)
    && (key == "pageLoadStrategy" ==> v.Str? && ReadStrategy(v.s).Some?)
    && (key == "unhandledPromptBehavior" ==> v.Str? && ReadBehavior(v.s).Some?)
  }

  lemma ValidTyped(port: Platform, key: string, v: Json)
    requires Valid(port, key, v)
    ensures Typed(key, v)
  {
  }

  /** What a request asks for under a key when one entry of firstMatch is taken. */
  function Requested(always: Fields, entry: Fields, key: string): (r: Option<Json>)
  {
    if Asked(always, key).Some? then Asked(always, key) else Asked(entry, key)
  }

  /** Under every key but the proxy the result holds what was requested, or else the port's value. */
  lemma ResultHolds(port: Platform, always: Fields, entry: Fields, required: Fields, offer: Fields, base: Fields, key: string)
    requires Validated(port, always) == Some(required) && Validated(port, entry) == Some(offer)
    requires offer.Keys !! required.Keys && key != "proxy"
    ensures Asked(always, key).None? || Asked(entry, key).None?
    ensures var m := base + (required + offer);
            match Requested(always, entry, key) {
              case Some(v) => Valid(port, key, v) && key in m && m[key] == v
              case None => (key in m <==> key in base) && (key in m ==> m[key] == base[key])
            }
  {
    hide Valid, Validated;
    ValidatedKeeps(port, always, required);
    ValidatedKeeps(port, entry, offer);
    ValidatedAllValid(port, always, required);
    ValidatedAllValid(port, entry, offer);
  }

  /** Parsing gives every capability that was requested, as it was requested, and the port's own values otherwise. */
  lemma ParsedResult(port: Platform, always: Fields, entry: Fields, required: Fields, offer: Fields)
    requires Validated(port, always) == Some(required) && Validated(port, entry) == Some(offer)
    requires offer.Keys !! required.Keys
    ensures var c := Parse(Base(port) + (required + offer));
            Honours(port, always, entry, c)
  {
    hide Valid, Validated, Base, ReadTimeouts, ReadStrategy, ReadBehavior, Requested;
    BaseValues(port);
    BaseKeys(port, "timeouts");
    BaseKeys(port, "pageLoadStrategy");
    BaseKeys(port, "unhandledPromptBehavior");
    ResultTyped(port, always, entry, required, offer, "browserName");
    ResultTyped(port, always, entry, required, offer, "browserVersion");
    ResultTyped(port, always, entry, required, offer, "platformName");
    ResultTyped(port, always, entry, required, offer, "acceptInsecureCerts");
    ResultTyped(port, always, entry, required, offer, "setWindowRect");
    ResultTyped(port, always, entry, required, offer, "timeouts");
    ResultTyped(port, always, entry, required, offer, "pageLoadStrategy");
    ResultTyped(port, always, entry, required, offer, "unhandledPromptBehavior");
  }

  lemma ResultTyped(port: Platform, always: Fields, entry: Fields, required: Fields, offer: Fields, key: string)
    requires Validated(port, always) == Some(required) && Validated(port, entry) == Some(offer)
    requires offer.Keys !! required.Keys && key != "proxy"
    ensures var m := Base(port) + (required + offer);
            match Requested(always, entry, key) {
              case Some(v) => key in m && m[key] == v && Typed(key, v)
              case None => (key in m <==> key in Base(port)) && (key in m ==> m[key] == Base(port)[key])
            }
  {
    hide Valid, Validated, Base, Requested;
    ResultHolds(port, always, entry, required, offer, Base(port), key);
    if Requested(always, entry, key).Some? {
      ValidTyped(port, key, Requested(always, entry, key).value);
    }
  }

  predicate Honours(port: Platform, always: Fields, entry: Fields, c: Capabilities) {
    && c.setWindowRect == port.own.setWindowRect
    && c.browserName == StringOr(Requested(always, entry, "browserName"), port.own.browserName)
    && c.browserVersion == StringOr(Requested(always, entry, "browserVersion"), port.own.browserVersion)
    && c.platformName == StringOr(Requested(always, entry, "platformName"), port.own.platformName)
    && c.acceptInsecureCerts == (match Requested(always, entry, "acceptInsecureCerts")
                                 case Some(Bool(b)) => Some(b)
                                 case _ => port.own.acceptInsecureCerts)
    && (match Requested(always, entry, "timeouts")
        case Some(v) => v.Object? && c.timeouts == ReadTimeouts(v.fields) && c.timeouts.Some?
        case None => c.timeouts == None)
    && (match Requested(always, entry, "pageLoadStrategy")
        case Some(v) => v.Str? && c.pageLoadStrategy == ReadStrategy(v.s) && c.pageLoadStrategy.Some?
        case None => c.pageLoadStrategy == None)
    && (match Requested(always, entry, "unhandledPromptBehavior")
        case Some(v) => v.Str? && c.unhandledPromptBehavior == ReadBehavior(v.s) && c.unhandledPromptBehavior.Some?
        case None => c.unhandledPromptBehavior == None)
  }

  function StringOr(v: Option<Json>, default: Option<string>): (r: Option<string>)
  {
    match v
    case Some(Str(s)) => Some(s)
    case _ => default
  }

  /**
   * The whole way from request to session: the capabilities parsed from a negotiated result honour
   * alwaysMatch and the entry of firstMatch that was taken, the first one the port can meet.
   */
  lemma NegotiatedHonours(port: Platform, parameters: Fields, result: Fields)
    requires Negotiates(port, parameters, result)
    ensures var c := GetObject(parameters, "capabilities").value;
            exists required, offers, i: nat ::
              Prepared(port, parameters, required, offers) && Chosen(port, required, offers, i) &&
              result == Base(port) + (required + offers[i]) &&
              i < |FirstMatch(c).value| && FirstMatch(c).value[i].Object? &&
              Honours(port, AlwaysMatch(c).value, FirstMatch(c).value[i].fields, Parse(result))
  {
    hide Validated, Base, Meets, Honours, Parse, AlwaysMatch, FirstMatch;
    var required, offers, i: nat :| Prepared(port, parameters, required, offers) && Chosen(port, required, offers, i) &&
      result == Base(port) + (required + offers[i]);
    var c := GetObject(parameters, "capabilities").value;
    assert Offers(port, FirstMatch(c).value[i], required, offers[i]);
    ParsedResult(port, AlwaysMatch(c).value, FirstMatch(c).value[i].fields, required, offers[i]);
  }
}
