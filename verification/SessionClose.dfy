/** Deleting a session closes every window: it ends, and success means no window is left or the browser quit. */
module SessionClose {
  import opened Wrappers
  import opened Json
  import opened Session

  // ----- A browser with windows

  /** How the browser meets the one message it has got. */
  datatype Choice =
    | Oblige(listing: seq<Handle>, ack: Option<Fields>)  // the order it lists its windows in when asked, and what it says on closing one
    | Refuse(error: Error)
    | Quit

  function Describe(listing: seq<Handle>): (contexts: seq<Json>)
  {
    seq(|listing|, i requires 0 <= i < |listing| => Object(map["handle" := Str(listing[i])]))
  }

  function Ok(fields: Option<Fields>): (a: Response)
  {
    Response(false, fields, UnknownError, Success(Null), NoRect)
  }

  /** One pending command, the one sent last. */
  ghost predicate Waiting(s: State)
  {
    !s.crashed && s.pending.Keys == {s.last} && s.sent != []
  }

  /** The browser removes exactly the window it is told to close, and lists exactly the windows it has. */
  ghost predicate Fair(s: State, windows: set<Handle>, choice: Choice)
    requires Waiting(s)
  {
    choice.Oblige? && s.pending[s.last].kind.Contexts? ==> forall w :: w in choice.listing <==> w in windows
  }

  function Meet(s: State, windows: set<Handle>, choice: Choice): (r: (State, set<Handle>))
    requires !s.crashed && s.last in s.pending && s.sent != []
  {
    match choice
    case Oblige(listing, ack) =>
      var told := s.sent[|s.sent| - 1];
      if s.pending[s.last].kind.ContextClosed? then
        (Step(s, Dispatch(s.last, Ok(ack))), if told.window.Some? then windows - {told.window.value} else windows)
      else (Step(s, Dispatch(s.last, Ok(Some(map["contexts" := Array(Describe(listing))])))), windows)
    case Refuse(error) => (Step(s, Dispatch(s.last, Response(true, None, error, Fail(error), NoRect))), windows)
    case Quit => (Step(s, Disconnect([s.last])), {})
  }

  // ----- Stages of closing

  /** Deleting `request` has got this far: it asked for the windows, or told the browser to close one it has. */
  ghost predicate Closing(s: State, windows: set<Handle>, request: Request)
  {
    && Waiting(s) && s.connected
    && var h := s.pending[s.last];
       || (h.kind == Contexts && (h.k == Then(CloseAll, Reply(request)) || h.k == Then(Connected, Then(CloseAll, Reply(request)))))
       || (h.kind == ContextClosed && h.k == Then(CloseAll, Reply(request))
           && var told := s.sent[|s.sent| - 1].window; told.Some? && told.value in windows)
  }

  /** How many more answers it can take. */
  ghost function Remaining(s: State, windows: set<Handle>): (n: nat)
    requires Waiting(s)
  {
    2 * |windows| + if s.pending[s.last].kind.ContextClosed? then 0 else 1
  }

  /** The request was answered and nothing is pending. */
  ghost predicate Over(s: State, t: State, request: Request)
  {
    !t.crashed && t.pending == map[] && |t.replies| == |s.replies| + 1
    && t.replies[..|s.replies|] == s.replies && t.replies[|s.replies|].request == request
  }

  lemma {:induction false} HandlesOfListing(listing: seq<Handle>)
    ensures HandlesOf(Describe(listing)).Some?
    ensures var hs := HandlesOf(Describe(listing)).value; |hs| == |listing| && forall i :: 0 <= i < |hs| ==> hs[i] == Str(listing[i])
  {
    if listing != [] {
      var n := |listing| - 1;
      HandlesOfListing(listing[..n]);
      assert Describe(listing)[..n] == Describe(listing[..n]);
    }
  }

  /** The list of windows came back. */
  lemma Listed(s: State, windows: set<Handle>, request: Request, listing: seq<Handle>, ack: Option<Fields>)
    requires Closing(s, windows, request) && s.pending[s.last].kind.Contexts? && Fair(s, windows, Oblige(listing, ack))
    ensures var (t, ws) := Meet(s, windows, Oblige(listing, ack));
            ws == windows &&
            if windows == {} then Over(s, t, request) && t.replies[|s.replies|].result == Success(Null)
            else Closing(t, ws, request) && t.replies == s.replies && Remaining(t, ws) < Remaining(s, windows)
  {
    var k := s.pending[s.last].k;
    var held := s.(pending := map[]);
    var hs := ListingRead(s, windows, request, listing, ack);
    hide Meet;
    ThroughConnected(held, request, Success(Array(hs)));
    if listing == [] {
      assert windows == {};
    } else {
      assert listing[0] in windows;
    }
  }

  /** The handler gets the handles of the listing. */
  lemma ListingRead(s: State, windows: set<Handle>, request: Request, listing: seq<Handle>, ack: Option<Fields>) returns (hs: seq<Json>)
    requires Closing(s, windows, request) && s.pending[s.last].kind.Contexts?
    ensures Meet(s, windows, Oblige(listing, ack)).0 == Complete(s.(pending := map[]), s.pending[s.last].k, Success(Array(hs)))
    ensures Meet(s, windows, Oblige(listing, ack)).1 == windows
    ensures if listing == [] then FirstHandle(Array(hs)).None? else FirstHandle(Array(hs)) == Some(listing[0])
  {
    hide Complete;
    HandlesOfListing(listing);
    hs := HandlesOf(Describe(listing)).value;
    assert s.pending - {s.last} == map[];
    var fields := map["contexts" := Array(Describe(listing))];
    assert ReadContexts(fields) == Success(Array(hs));
  }

  /** While the browser is connected the two forms of the list handler do the same. */
  lemma ThroughConnected(s: State, request: Request, r: Result)
    requires s.connected
    ensures Complete(s, Then(Connected, Then(CloseAll, Reply(request))), r) == Complete(s, Then(CloseAll, Reply(request)), r)
  {
  }

  /** A window was closed. */
  lemma WindowClosed(s: State, windows: set<Handle>, request: Request, listing: seq<Handle>, ack: Option<Fields>)
    requires Closing(s, windows, request) && s.pending[s.last].kind.ContextClosed?
    ensures var (t, ws) := Meet(s, windows, Oblige(listing, ack));
            Closing(t, ws, request) && t.replies == s.replies && Remaining(t, ws) < Remaining(s, windows)
  {
    assert s.pending - {s.last} == map[];
    var told := s.sent[|s.sent| - 1].window.value;
    assert |windows - {told}| == |windows| - 1;
  }

  /** An error ends it with that error. */
  lemma Objected(s: State, windows: set<Handle>, request: Request, error: Error)
    requires Closing(s, windows, request)
    ensures var (t, ws) := Meet(s, windows, Choice.Refuse(error));
            Over(s, t, request) && t.replies[|s.replies|].result == Fail(error)
  {
    assert s.pending - {s.last} == map[];
    ThroughConnected(s.(pending := map[]), request, Fail(error));
  }

  /** A browser that goes away ends it. */
  lemma Gone(s: State, windows: set<Handle>, request: Request)
    requires Closing(s, windows, request)
    ensures var (t, ws) := Meet(s, windows, Quit); Over(s, t, request) && !t.connected
  {
    var off := s.(connected := false);
    var held := off.(pending := map[]);
    assert s.pending - {s.last} == map[];
    assert FirstHandle(Array([])) == None;
    assert Flush(off, [s.last]) == Flush(Take(off, s.last, DISCONNECTED), []) by { assert [s.last][1..] == []; }
    var k := Then(CloseAll, Reply(request));
    assert Complete(held, k, Success(Array([]))) == Complete(held, Reply(request), Success(Null));
    assert Complete(held, k, Fail(UnknownError)) == Complete(held, Reply(request), Fail(UnknownError));
    assert Complete(held, Then(Connected, k), Fail(UnknownError)) == Complete(held, k, Success(Array([])));
    assert Take(off, s.last, DISCONNECTED) == RunHandler(held, s.pending[s.last], DISCONNECTED);
  }

  // ----- The whole of it

  /** Serving the browser's choices until the request is answered. */
  function Serve(s: State, windows: set<Handle>, choices: seq<Choice>): (r: (State, set<Handle>))
    decreases |choices|
  {
    if choices == [] || s.crashed || s.last !in s.pending || s.sent == [] then (s, windows)
    else
      var (t, ws) := Meet(s, windows, choices[0]);
      Serve(t, ws, choices[1..])
  }

  ghost predicate FairAll(s: State, windows: set<Handle>, choices: seq<Choice>)
    decreases |choices|
  {
    if choices == [] || !Waiting(s) then true
    else
      Fair(s, windows, choices[0]) &&
      var (t, ws) := Meet(s, windows, choices[0]);
      FairAll(t, ws, choices[1..])
  }

  lemma {:induction false} ServeCloses(s: State, windows: set<Handle>, request: Request, choices: seq<Choice>)
    requires Closing(s, windows, request) && FairAll(s, windows, choices)
    ensures var (t, ws) := Serve(s, windows, choices);
            (Over(s, t, request) && (t.replies[|s.replies|].result.Success? ==> ws == {} || !t.connected))
            || (Closing(t, ws, request) && |choices| < Remaining(s, windows))
    decreases |choices|
  {
    hide Step, Describe;
    if choices != [] {
      var (t, ws) := Meet(s, windows, choices[0]);
      match choices[0] {
        case Oblige(listing, ack) =>
          if s.pending[s.last].kind.Contexts? {
            Listed(s, windows, request, listing, ack);
          } else {
            WindowClosed(s, windows, request, listing, ack);
          }
        case Refuse(error) => Objected(s, windows, request, error);
        case Quit => Gone(s, windows, request);
      }
      if Over(s, t, request) {
        assert Serve(t, ws, choices[1..]) == (t, ws);
      } else {
        ServeCloses(t, ws, request, choices[1..]);
      }
    }
  }

  /**
   Deleting a session with `n` windows is answered within 2n + 1 answers of any
   browser that lists and removes its windows truthfully, and a successful
   reply means that no window is left or that the browser has quit.
   */
  lemma DeleteEnds(s: State, windows: set<Handle>, request: Request, choices: seq<Choice>)
    requires !s.crashed && s.alive && s.connected && s.pending == map[]
    requires FairAll(HandleDelete(s, request), windows, choices) && |choices| >= 2 * |windows| + 1
    ensures var (t, ws) := Serve(HandleDelete(s, request), windows, choices);
            Over(s, t, request) && (t.replies[|s.replies|].result.Success? ==> ws == {} || !t.connected)
  {
    var t0 := HandleDelete(s, request);
    assert Closing(t0, windows, request);
    ServeCloses(t0, windows, request, choices);
  }
}
