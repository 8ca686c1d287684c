/** SessionHost as the object it is: the table, the counter and the loops, tied to the steps of the session. */
module SessionHost {
  import opened Wrappers
  import opened Json
  import opened Session
  import opened SessionLedger

  /** What the error codes and the value handlers make of the object of an answer. */
  datatype Reader = Reader(error: Option<Fields> -> Error, reading: Option<Fields> -> Result, layout: Option<Fields> -> LayoutReading)

  /** The number of a message; text that is no JSON, other values and objects without a number have none. */
  function Number(message: Option<Json>): (id: Option<int>)
  {
    if message.Some? && message.value.Object? && "id" in message.value.fields then AsInteger(message.value.fields["id"]) else None
  }

  /** An error object makes the answer an error, whatever else it holds; a result without fields is no object. */
  function ReadResponse(message: Fields, reader: Reader): (a: Response)
    ensures a.isError <==> GetObject(message, "error").Some?
    ensures a.isError ==> a.object' == GetObject(message, "error")
    ensures !a.isError ==> a.object' != Some(map[]) && (a.object'.Some? ==> a.object' == GetObject(message, "result"))
    ensures !a.isError && a.object'.None? ==> GetObject(message, "result") in {None, Some(map[])}
  {
    var error, result := GetObject(message, "error"), GetObject(message, "result");
    var o := if error.Some? then error else if result.Some? && |result.value| != 0 then result else None;
    Response(error.Some?, o, reader.error(o), reader.reading(o), reader.layout(o))
  }

  class Host {
    var lastSequenceID: nat
    var commandRequests: map<nat, Handler>
    var connected: bool
    var session: State  // windows, replies and history; its own table fields are not used

    /** The state of the session with this host. */
    function View(): (s: State)
      reads this
    {
      session.(last := lastSequenceID, pending := commandRequests, connected := connected)
    }

    constructor (s: State)
      ensures View() == s
    {
      lastSequenceID, commandRequests, connected, session := s.last, s.pending, s.connected, s;
    }

    method SendCommandToBackend(method': string, window: Option<Handle>, frame: Option<Handle>, part: Part, kind: Kind, k: Completion)
      returns (sequenceID: nat)
      requires forall id :: id in commandRequests ==> id <= lastSequenceID
      modifies this
      ensures View() == Send(old(View()), method', window, frame, part, kind, k)
      ensures sequenceID == lastSequenceID && sequenceID !in old(commandRequests)
    {
      lastSequenceID := lastSequenceID + 1;
      sequenceID := lastSequenceID;
      commandRequests := commandRequests[sequenceID := Handler(kind, k)];
      session := session.(sent := session.sent + [Message(sequenceID, method', window, frame, part, session.dialog)]);
    }

    /** Calls a handler that is no longer in the table; it may send commands of its own. */
    method Call(h: Handler, response: Response)
      modifies this
      ensures View() == RunHandler(old(View()), h, response)
    {
      var t := RunHandler(View(), h, response);
      lastSequenceID, commandRequests, connected, session := t.last, t.pending, t.connected, t;
    }

    /** A message that is no object with a number is dropped; a number that is not pending fails an assertion. */
    method DispatchMessage(message: Option<Json>, reader: Reader)
      requires var id := Number(message); id.Some? ==> id.value >= 0 && id.value in commandRequests
      modifies this
      ensures View() == if Number(message).Some? then Take(old(View()), Number(message).value, ReadResponse(message.value.fields, reader))
                        else old(View())
    {
      if message.None? || !message.value.Object? {
        return;
      }
      var messageObject := message.value.fields;
      if "id" !in messageObject || AsInteger(messageObject["id"]).None? {
        return;
      }
      var sequenceID: nat := AsInteger(messageObject["id"]).value;
      var responseHandler := commandRequests[sequenceID];
      commandRequests := commandRequests - {sequenceID};
      Call(responseHandler, ReadResponse(messageObject, reader));
    }

    /** The keys of the table, in whatever order it lists them. */
    method CopyKeys() returns (keys: seq<nat>)
      ensures Distinct(keys) && forall id :: id in keys <==> id in commandRequests
    {
      keys := [];
      var rest := commandRequests.Keys;
      while rest != {}
        invariant Distinct(keys) && rest <= commandRequests.Keys
        invariant forall id :: id in keys <==> id in commandRequests && id !in rest
      {
        var id :| id in rest;
        keys := keys + [id];
        rest := rest - {id};
      }
    }

    /** The browser is gone: every handler in the table is called with an error. */
    method InspectorDisconnected(ghost accepted: set<Request>) returns (messages: seq<nat>)
      requires Ledger(View(), accepted) && !session.crashed
      modifies this
      ensures Distinct(messages) && forall id :: id in messages <==> id in old(commandRequests)
      ensures View() == Flush(old(View()).(connected := false), messages)
    {
      hide RunHandler, Ledger;
      connected := false;
      messages := CopyKeys();
      ghost var start := View();
      BrowserOnly(old(View()), start, accepted);
      var i := 0;
      while i < |messages| && !session.crashed
        invariant i <= |messages| && Flush(View(), messages[i..]) == Flush(start, messages)
        invariant !session.crashed ==> Ledger(View(), accepted)
        invariant !session.crashed ==> forall j :: i <= j < |messages| ==> messages[j] in commandRequests
      {
        ghost var before := View();
        var messageID := messages[i];
        var responseHandler := commandRequests[messageID];
        commandRequests := commandRequests - {messageID};
        Call(responseHandler, DISCONNECTED);
        assert View() == Take(before, messageID, DISCONNECTED);
        assert messages[i..][1..] == messages[i + 1..];
        if !session.crashed {
          TakeKeepsLedger(before, accepted, messageID, DISCONNECTED);
        }
        i := i + 1;
      }
    }
  }

  /** The loop of getWindowHandles. */
  method ReadHandles(contexts: seq<Json>) returns (handles: Option<seq<Json>>)
    ensures handles == HandlesOf(contexts)
  {
    var windowHandles := [];
    var i := 0;
    while i < |contexts|
      invariant i <= |contexts| && HandlesOf(contexts[..i]) == Some(windowHandles)
    {
      assert contexts[..i + 1][..i] == contexts[..i];
      if !contexts[i].Object? || GetString(contexts[i].fields, "handle").None? {
        NoHandles(contexts, i + 1);
        return None;
      }
      windowHandles := windowHandles + [Str(GetString(contexts[i].fields, "handle").value)];
      i := i + 1;
    }
    assert contexts[..i] == contexts;
    return Some(windowHandles);
  }

  /** One context without a handle spoils the list. */
  lemma {:induction false} NoHandles(contexts: seq<Json>, n: nat)
    requires n <= |contexts| && HandlesOf(contexts[..n]).None?
    ensures HandlesOf(contexts).None?
    decreases |contexts| - n
  {
    if n == |contexts| {
      assert contexts[..n] == contexts;
    } else {
      assert contexts[..n + 1][..n] == contexts[..n];
      NoHandles(contexts, n + 1);
    }
  }
}
