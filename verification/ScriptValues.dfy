/** Script results and element references of the WebDriver session. */
module ScriptValues {
  import opened Wrappers
  import opened Json
  import opened Session

  /** The key under which the browser names an element of session `id`. */
  function NodeKey(id: string): (key: string)
  {
    "session-node-" + id
  }

  /** A value the browser means as an element of this session. */
  predicate IsReference(id: string, v: Json)
  {
    v.Object? && GetString(v.fields, NodeKey(id)).Some?
  }

  /** createElement on a value of the browser. */
  function CreateElement(id: string, v: Json): (r: Json)
    requires IsReference(id, v)
  {
    Object(map[ELEMENT := v.fields[NodeKey(id)]])
  }

  /** What handleScriptResult makes of a value. */
  function Convert(id: string, v: Json): (r: Json)
  {
    match v
    case Array(items) => Array(seq(|items|, i requires 0 <= i < |items| => Convert(id, items[i])))
    case Object(fields) =>
      if IsReference(id, v) then CreateElement(id, v)
      else Object(map key | key in fields :: Convert(id, fields[key]))
    case _ => v
  }

  /** No reference to an element of this session anywhere in `v`. */
  ghost predicate NoReference(id: string, v: Json)
  {
    match v
    case Array(items) => forall i :: 0 <= i < |items| ==> NoReference(id, items[i])
    case Object(fields) => !IsReference(id, v) && forall key :: key in fields ==> NoReference(id, fields[key])
    case _ => true
  }

  /** The browser's key and the client's key for an element are never the same. */
  lemma KeysDiffer(id: string)
    ensures NodeKey(id) != ELEMENT
  {
    assert NodeKey(id)[0] == 's' && ELEMENT[0] == 'e';
  }

  lemma ElementHasNoReference(id: string, name: string)
    ensures NoReference(id, Object(map[ELEMENT := Str(name)]))
  {
    KeysDiffer(id);
  }

  /** Conversion keeps the kind of every value, the length of every array and, outside references, the keys of every object. */
  lemma ConvertShape(id: string, v: Json)
    ensures Convert(id, v).Str? <==> v.Str?
    ensures Convert(id, v).Array? <==> v.Array?
    ensures Convert(id, v).Object? <==> v.Object?
    ensures v.Array? ==> |Convert(id, v).items| == |v.items|
    ensures v.Object? ==> Convert(id, v).fields.Keys == if IsReference(id, v) then {ELEMENT} else v.fields.Keys
  {
  }

  /** No session-node reference gets through. */
  lemma {:induction false} ConvertClears(id: string, v: Json)
    ensures NoReference(id, Convert(id, v))
    decreases v
  {
    match v {
      case Array(items) =>
        forall i | 0 <= i < |items| ensures NoReference(id, Convert(id, items[i])) { ConvertClears(id, items[i]); }
      case Object(fields) =>
        if IsReference(id, v) {
          ElementHasNoReference(id, fields[NodeKey(id)].s);
        } else {
          forall key | key in fields ensures NoReference(id, Convert(id, fields[key])) { ConvertClears(id, fields[key]); }
          if NodeKey(id) in fields {
            ConvertShape(id, fields[NodeKey(id)]);
          }
        }
      case _ =>
    }
  }

  /** A value without references is left alone. */
  lemma {:induction false} ConvertIdentity(id: string, v: Json)
    requires NoReference(id, v)
    ensures Convert(id, v) == v
    decreases v
  {
    match v {
      case Array(items) =>
        forall i | 0 <= i < |items| ensures Convert(id, items[i]) == items[i] { ConvertIdentity(id, items[i]); }
        assert Convert(id, v).items == items;
      case Object(fields) =>
        forall key | key in fields ensures Convert(id, fields[key]) == fields[key] { ConvertIdentity(id, fields[key]); }
        assert Convert(id, v).fields == fields;
      case _ =>
    }
  }

  /** Converting twice is converting once; what is left alone is exactly what holds no reference. */
  lemma ConvertIdempotent(id: string, v: Json)
    ensures Convert(id, Convert(id, v)) == Convert(id, v)
    ensures Convert(id, v) == v <==> NoReference(id, v)
  {
    ConvertClears(id, v);
    ConvertIdentity(id, Convert(id, v));
    if NoReference(id, v) {
      ConvertIdentity(id, v);
    }
  }

  // ----- From the client and back

  /** extractElementID: the id of a client's element, or nothing of use. */
  function ExtractElementID(v: Json): (id: string)
  {
    if v.Object? && GetString(v.fields, ELEMENT).Some? then GetString(v.fields, ELEMENT).value else ""
  }

  function ExtractElement(id: string, v: Json): (r: Option<Json>)
  {
    var name := ExtractElementID(v);
    if name != "" then Some(Object(map[NodeKey(id) := Str(name)])) else None
  }

  /** Sending a client's element to a script and reading it back gives the bare element: the value itself exactly when it held nothing else. */
  lemma RoundTrip(id: string, v: Json)
    requires ExtractElementID(v) != ""
    ensures ExtractElement(id, v).Some?
    ensures Convert(id, ExtractElement(id, v).value) == Object(map[ELEMENT := Str(ExtractElementID(v))])
    ensures Convert(id, ExtractElement(id, v).value) == v <==> v.fields.Keys == {ELEMENT}
    ensures ExtractElementID(Convert(id, ExtractElement(id, v).value)) == ExtractElementID(v)
  {
    var back := Convert(id, ExtractElement(id, v).value);
    assert back.fields.Keys == {ELEMENT};
    if v.fields.Keys == {ELEMENT} {
      assert v.fields == back.fields;
    }
  }

  // ----- The loops

  method HandleScriptResult(id: string, v: Json) returns (r: Json)
    ensures r == Convert(id, v)
    decreases v
  {
    if v.Array? {
      var returned := [];
      var i := 0;
      while i < |v.items|
        invariant i == |returned| <= |v.items| && forall j :: 0 <= j < i ==> returned[j] == Convert(id, v.items[j])
      {
        var item := HandleScriptResult(id, v.items[i]);
        returned := returned + [item];
        i := i + 1;
      }
      return Array(returned);
    }
    if IsReference(id, v) {
      return CreateElement(id, v);
    }
    if v.Object? {
      var returned: Fields := map[];
      var rest := v.fields.Keys;
      while rest != {}
        invariant rest <= v.fields.Keys && returned.Keys == v.fields.Keys - rest
        invariant forall key :: key in returned ==> returned[key] == Convert(id, v.fields[key])
        decreases |rest|
      {
        var key :| key in rest;
        var value := HandleScriptResult(id, v.fields[key]);
        returned := returned[key := value];
        rest := rest - {key};
      }
      assert returned == Convert(id, v).fields;
      return Object(returned);
    }
    return v;
  }
}
