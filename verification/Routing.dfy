/** Request routing of the WebDriver service: the command table, the search through it, and its inverse. */
module Routing {
  import opened Wrappers
  import opened ModulePath

  datatype HTTPMethod = Get | Post | Delete

  datatype Handler =
    | NewSession | DeleteSession | Status | GetTimeouts | SetTimeouts | Go | GetCurrentURL | Back | Forward
    | Refresh | GetTitle | GetWindowHandle | CloseWindow | SwitchToWindow | GetWindowHandles | SwitchToFrame
    | SwitchToParentFrame | GetWindowRect | SetWindowRect | FindElement | FindElements
    | FindElementFromElement | FindElementsFromElement | GetActiveElement | IsElementSelected
    | GetElementAttribute | GetElementProperty | GetElementCSSValue | GetElementText | GetElementTagName
    | GetElementRect | IsElementEnabled | ElementClick | ElementClear | ElementSendKeys | ExecuteScript
    | ExecuteAsyncScript | GetAllCookies | GetNamedCookie | AddCookie | DeleteCookie | DeleteAllCookies
    | DismissAlert | AcceptAlert | GetAlertText | SendAlertText | TakeScreenshot | TakeElementScreenshot
    | IsElementDisplayed

  const ROWS := 49

  /** The handler in each row of s_commands. */
  function HandlerAt(row: nat): (h: Handler)
    requires row < ROWS
  {
    match row
    case 0 => NewSession
    case 1 => DeleteSession
    case 2 => Status
    case 3 => GetTimeouts
    case 4 => SetTimeouts
    case 5 => Go
    case 6 => GetCurrentURL
    case 7 => Back
    case 8 => Forward
    case 9 => Refresh
    case 10 => GetTitle
    case 11 => GetWindowHandle
    case 12 => CloseWindow
    case 13 => SwitchToWindow
    case 14 => GetWindowHandles
    case 15 => SwitchToFrame
    case 16 => SwitchToParentFrame
    case 17 => GetWindowRect
    case 18 => SetWindowRect
    case 19 => FindElement
    case 20 => FindElements
    case 21 => FindElementFromElement
    case 22 => FindElementsFromElement
    case 23 => GetActiveElement
    case 24 => IsElementSelected
    case 25 => GetElementAttribute
    case 26 => GetElementProperty
    case 27 => GetElementCSSValue
    case 28 => GetElementText
    case 29 => GetElementTagName
    case 30 => GetElementRect
    case 31 => IsElementEnabled
    case 32 => ElementClick
    case 33 => ElementClear
    case 34 => ElementSendKeys
    case 35 => ExecuteScript
    case 36 => ExecuteAsyncScript
    case 37 => GetAllCookies
    case 38 => GetNamedCookie
    case 39 => AddCookie
    case 40 => DeleteCookie
    case 41 => DeleteAllCookies
    case 42 => DismissAlert
    case 43 => AcceptAlert
    case 44 => GetAlertText
    case 45 => SendAlertText
    case 46 => TakeScreenshot
    case 47 => TakeElementScreenshot
    case _ => IsElementDisplayed
  }

  /** The words of the templates. */
  datatype Word =
    | WSession | WStatus | WTimeouts | WUrl | WBack | WForward | WRefresh | WTitle | WWindow | WHandles
    | WFrame | WParent | WRect | WElement | WElements | WActive | WSelected | WAttribute | WProperty | WCss
    | WText | WName | WEnabled | WClick | WClear | WValue | WExecute | WSync | WAsync | WCookie | WAlert
    | WDismiss | WAccept | WScreenshot | WDisplayed

  function Text(w: Word): (s: string)
  {
    match w
    case WSession => "session"
    case WStatus => "status"
    case WTimeouts => "timeouts"
    case WUrl => "url"
    case WBack => "back"
    case WForward => "forward"
    case WRefresh => "refresh"
    case WTitle => "title"
    case WWindow => "window"
    case WHandles => "handles"
    case WFrame => "frame"
    case WParent => "parent"
    case WRect => "rect"
    case WElement => "element"
    case WElements => "elements"
    case WActive => "active"
    case WSelected => "selected"
    case WAttribute => "attribute"
    case WProperty => "property"
    case WCss => "css"
    case WText => "text"
    case WName => "name"
    case WEnabled => "enabled"
    case WClick => "click"
    case WClear => "clear"
    case WValue => "value"
    case WExecute => "execute"
    case WSync => "sync"
    case WAsync => "async"
    case WCookie => "cookie"
    case WAlert => "alert"
    case WDismiss => "dismiss"
    case WAccept => "accept"
    case WScreenshot => "screenshot"
    case WDisplayed => "displayed"
  }

  /** The names of the variable entries. */
  datatype Name = SessionId | ElementId | PropertyName

  function NameText(n: Name): (s: string)
  {
    match n
    case SessionId => "sessionId"
    case ElementId => "elementId"
    case PropertyName => "name"
  }

  datatype Entry = Literal(word: Word) | Variable(name: Name)

  function EntryText(e: Entry): (s: string)
  {
    match e
    case Literal(w) => Text(w)
    case Variable(n) => "$" + NameText(n)
  }

  /** The method of a row of s_commands and the entries of its URI template. */
  function Row(h: Handler): (row: (HTTPMethod, seq<Entry>))
  {
    match h
    case NewSession => (Post, [Literal(WSession)])
    case DeleteSession => (Delete, [Literal(WSession), Variable(SessionId)])
    case Status => (Get, [Literal(WStatus)])
    case GetTimeouts => (Get, [Literal(WSession), Variable(SessionId), Literal(WTimeouts)])
    case SetTimeouts => (Post, [Literal(WSession), Variable(SessionId), Literal(WTimeouts)])
    case Go => (Post, [Literal(WSession), Variable(SessionId), Literal(WUrl)])
    case GetCurrentURL => (Get, [Literal(WSession), Variable(SessionId), Literal(WUrl)])
    case Back => (Post, [Literal(WSession), Variable(SessionId), Literal(WBack)])
    case Forward => (Post, [Literal(WSession), Variable(SessionId), Literal(WForward)])
    case Refresh => (Post, [Literal(WSession), Variable(SessionId), Literal(WRefresh)])
    case GetTitle => (Get, [Literal(WSession), Variable(SessionId), Literal(WTitle)])
    case GetWindowHandle => (Get, [Literal(WSession), Variable(SessionId), Literal(WWindow)])
    case CloseWindow => (Delete, [Literal(WSession), Variable(SessionId), Literal(WWindow)])
    case SwitchToWindow => (Post, [Literal(WSession), Variable(SessionId), Literal(WWindow)])
    case GetWindowHandles => (Get, [Literal(WSession), Variable(SessionId), Literal(WWindow), Literal(WHandles)])
    case SwitchToFrame => (Post, [Literal(WSession), Variable(SessionId), Literal(WFrame)])
    case SwitchToParentFrame => (Post, [Literal(WSession), Variable(SessionId), Literal(WFrame), Literal(WParent)])
    case GetWindowRect => (Get, [Literal(WSession), Variable(SessionId), Literal(WWindow), Literal(WRect)])
    case SetWindowRect => (Post, [Literal(WSession), Variable(SessionId), Literal(WWindow), Literal(WRect)])
    case FindElement => (Post, [Literal(WSession), Variable(SessionId), Literal(WElement)])
    case FindElements => (Post, [Literal(WSession), Variable(SessionId), Literal(WElements)])
    case FindElementFromElement => (Post, [Literal(WSession), Variable(SessionId), Literal(WElement), Variable(ElementId), Literal(WElement)])
    case FindElementsFromElement => (Post, [Literal(WSession), Variable(SessionId), Literal(WElement), Variable(ElementId), Literal(WElements)])
    case GetActiveElement => (Get, [Literal(WSession), Variable(SessionId), Literal(WElement), Literal(WActive)])
    case IsElementSelected => (Get, [Literal(WSession), Variable(SessionId), Literal(WElement), Variable(ElementId), Literal(WSelected)])
    case GetElementAttribute => (Get, [Literal(WSession), Variable(SessionId), Literal(WElement), Variable(ElementId), Literal(WAttribute), Variable(PropertyName)])
    case GetElementProperty => (Get, [Literal(WSession), Variable(SessionId), Literal(WElement), Variable(ElementId), Literal(WProperty), Variable(PropertyName)])
    case GetElementCSSValue => (Get, [Literal(WSession), Variable(SessionId), Literal(WElement), Variable(ElementId), Literal(WCss), Variable(PropertyName)])
    case GetElementText => (Get, [Literal(WSession), Variable(SessionId), Literal(WElement), Variable(ElementId), Literal(WText)])
    case GetElementTagName => (Get, [Literal(WSession), Variable(SessionId), Literal(WElement), Variable(ElementId), Literal(WName)])
    case GetElementRect => (Get, [Literal(WSession), Variable(SessionId), Literal(WElement), Variable(ElementId), Literal(WRect)])
    case IsElementEnabled => (Get, [Literal(WSession), Variable(SessionId), Literal(WElement), Variable(ElementId), Literal(WEnabled)])
    case ElementClick => (Post, [Literal(WSession), Variable(SessionId), Literal(WElement), Variable(ElementId), Literal(WClick)])
    case ElementClear => (Post, [Literal(WSession), Variable(SessionId), Literal(WElement), Variable(ElementId), Literal(WClear)])
    case ElementSendKeys => (Post, [Literal(WSession), Variable(SessionId), Literal(WElement), Variable(ElementId), Literal(WValue)])
    case ExecuteScript => (Post, [Literal(WSession), Variable(SessionId), Literal(WExecute), Literal(WSync)])
    case ExecuteAsyncScript => (Post, [Literal(WSession), Variable(SessionId), Literal(WExecute), Literal(WAsync)])
    case GetAllCookies => (Get, [Literal(WSession), Variable(SessionId), Literal(WCookie)])
    case GetNamedCookie => (Get, [Literal(WSession), Variable(SessionId), Literal(WCookie), Variable(PropertyName)])
    case AddCookie => (Post, [Literal(WSession), Variable(SessionId), Literal(WCookie)])
    case DeleteCookie => (Delete, [Literal(WSession), Variable(SessionId), Literal(WCookie), Variable(PropertyName)])
    case DeleteAllCookies => (Delete, [Literal(WSession), Variable(SessionId), Literal(WCookie)])
    case DismissAlert => (Post, [Literal(WSession), Variable(SessionId), Literal(WAlert), Literal(WDismiss)])
    case AcceptAlert => (Post, [Literal(WSession), Variable(SessionId), Literal(WAlert), Literal(WAccept)])
    case GetAlertText => (Get, [Literal(WSession), Variable(SessionId), Literal(WAlert), Literal(WText)])
    case SendAlertText => (Post, [Literal(WSession), Variable(SessionId), Literal(WAlert), Literal(WText)])
    case TakeScreenshot => (Get, [Literal(WSession), Variable(SessionId), Literal(WScreenshot)])
    case TakeElementScreenshot => (Get, [Literal(WSession), Variable(SessionId), Literal(WElement), Variable(ElementId), Literal(WScreenshot)])
    case IsElementDisplayed => (Get, [Literal(WSession), Variable(SessionId), Literal(WElement), Variable(ElementId), Literal(WDisplayed)])
  }

  function Method(h: Handler): (m: HTTPMethod) { Row(h).0 }

  function Entries(h: Handler): (es: seq<Entry>) { Row(h).1 }

  /** The entries as they are written between the slashes. */
  function Template(h: Handler): (t: seq<string>)
  {
    seq(|Entries(h)|, i requires 0 <= i < |Entries(h)| => EntryText(Entries(h)[i]))
  }

  // ----- Matching

  predicate IsParameter(token: string) {
    token != [] && token[0] == '$'
  }

  predicate Matches(template: seq<string>, path: seq<string>)
  {
    |template| == |path| && forall j :: 0 <= j < |path| ==> IsParameter(template[j]) || template[j] == path[j]
  }

  type Parameters = map<string, string>

  /** The names a template binds, each with the entry of the path in its place. */
  function Bindings(template: seq<string>, path: seq<string>): (b: Parameters)
    requires |template| == |path|
  {
    if template == [] then map[]
    else
      var n := |template| - 1;
      var b := Bindings(template[..n], path[..n]);
      if IsParameter(template[n]) then b[template[n][1..] := path[n]] else b
  }

  /** String::split without empty entries. */
  function Tokens(path: string): (t: seq<string>)
  {
    NonEmpty(Split(path))
  }

  /** The first handler at or after `from` in the table that matches. */
  function Search(m: HTTPMethod, path: seq<string>, from: nat): (r: Option<(Handler, Parameters)>)
    requires from <= ROWS
    decreases ROWS - from
  {
    if from == ROWS then None
    else
      var h := HandlerAt(from);
      if Method(h) == m && Matches(Template(h), path) then Some((h, Bindings(Template(h), path)))
      else Search(m, path, from + 1)
  }

  // ----- The loops

  /** Every entry of every template is a non-empty word without a slash. */
  lemma TextIsPiece(w: Word)
    ensures Piece(Text(w))
  {
  }

  lemma EntryIsPiece(e: Entry)
    ensures Piece(EntryText(e))
  {
    if e.Literal? {
      TextIsPiece(e.word);
    } else {
      NameIsPiece(e.name);
    }
  }

  lemma NameIsPiece(n: Name)
    ensures Piece("$" + NameText(n))
  {
  }

  lemma TemplatePieces(h: Handler)
    ensures Pieces(Template(h))
  {
    hide Row, Piece;
    forall i | 0 <= i < |Template(h)| ensures Piece(Template(h)[i]) {
      EntryIsPiece(Entries(h)[i]);
    }
  }

  lemma EntryKind(e: Entry)
    ensures IsParameter(EntryText(e)) <==> e.Variable?
  {
    if e.Literal? {
      TextIsLiteral(e.word);
    }
  }

  lemma TextIsLiteral(w: Word)
    ensures !IsParameter(Text(w))
  {
  }

  lemma NameTextInjective(m: Name, n: Name)
    requires "$" + NameText(m) == "$" + NameText(n)
    ensures m == n
  {
    assert ("$" + NameText(m))[1..] == NameText(m) && ("$" + NameText(n))[1..] == NameText(n);
    assert "sessionId" != "elementId" && "sessionId" != "name" && "elementId" != "name";
  }

  lemma EntriesDistinct(h: Handler)
    ensures forall i, j :: 0 <= i < j < |Entries(h)| && Entries(h)[i].Variable? ==> Entries(h)[i] != Entries(h)[j]
  {
  }

  lemma TemplateNames(h: Handler)
    ensures DistinctNames(Template(h))
  {
    hide Row, Entries, EntryText, IsParameter, NameText;
    EntriesDistinct(h);
    forall i, j | 0 <= i < j < |Template(h)| && IsParameter(Template(h)[i]) && IsParameter(Template(h)[j])
      ensures Template(h)[i] != Template(h)[j]
    {
      SameEntry(Entries(h)[i], Entries(h)[j]);
    }
  }

  lemma SameEntry(d: Entry, e: Entry)
    requires IsParameter(EntryText(d)) && IsParameter(EntryText(e))
    ensures d.Variable? && (EntryText(d) == EntryText(e) ==> d == e)
  {
    hide Text, NameText, IsParameter;
    EntryKind(d);
    EntryKind(e);
    if EntryText(d) == EntryText(e) {
      NameTextInjective(d.name, e.name);
    }
  }

  lemma TemplateTokens(h: Handler)
    ensures Pieces(Template(h)) && Tokens([SEPARATOR] + Join(Template(h))) == Template(h)
  {
    TemplatePieces(h);
    AbsoluteEntries(Template(h));
    NonEmptyRooted(Template(h));
  }

  lemma NonEmptyRooted(ps: seq<string>)
    requires Pieces(ps)
    ensures NonEmpty([[]] + if ps == [] then [[]] else ps) == ps
  {
    NonEmptyRest(ps);
  }

  lemma {:induction false} NonEmptyRest(ps: seq<string>)
    requires Pieces(ps)
    ensures NonEmpty([[]] + ps) == ps
  {
    if ps != [] {
      var n := |ps| - 1;
      NonEmptyRest(ps[..n]);
      assert ([[]] + ps)[..n + 1] == [[]] + ps[..n];
    }
  }

  /** One row: entries are compared, or bound on top of what is bound already, until one differs. */
  method MatchRow(commandTokens: seq<string>, pathTokens: seq<string>, before: Parameters)
    returns (allMatched: bool, parameters: Parameters)
    requires |commandTokens| == |pathTokens|
    ensures allMatched <==> Matches(commandTokens, pathTokens)
    ensures allMatched ==> parameters == before + Bindings(commandTokens, pathTokens)
  {
    allMatched, parameters := true, before;
    var j := 0;
    while j < |pathTokens| && allMatched
      invariant j <= |pathTokens|
      invariant allMatched ==> Matches(commandTokens[..j], pathTokens[..j])
      invariant allMatched ==> parameters == before + Bindings(commandTokens[..j], pathTokens[..j])
      invariant !allMatched ==> !Matches(commandTokens, pathTokens)
    {
      assert commandTokens[..j + 1][..j] == commandTokens[..j] && pathTokens[..j + 1][..j] == pathTokens[..j];
      if IsParameter(commandTokens[j]) {
        parameters := parameters[commandTokens[j][1..] := pathTokens[j]];
      } else if commandTokens[j] != pathTokens[j] {
        allMatched := false;
      }
      j := j + 1;
    }
    assert allMatched ==> commandTokens[..j] == commandTokens && pathTokens[..j] == pathTokens;
  }

  /** findCommand: rows of another method or length are skipped, and what a failed row has bound is cleared. */
  method FindCommand(m: HTTPMethod, path: string) returns (r: Option<(Handler, Parameters)>)
    ensures r == Search(m, Tokens(path), 0)
  {
    hide HandlerAt, Row, Template, Method, Join, Split, NonEmpty, Bindings;
    var parameters: Parameters := map[];
    var i := 0;
    while i < ROWS
      invariant i <= ROWS && parameters == map[]
      invariant Search(m, Tokens(path), i) == Search(m, Tokens(path), 0)
    {
      var h := HandlerAt(i);
      if Method(h) == m {
        var pathTokens := SplitString(path, false);
        var commandTokens := SplitString([SEPARATOR] + Join(Template(h)), false);
        TemplateTokens(h);
        if |pathTokens| == |commandTokens| {
          var allMatched;
          allMatched, parameters := MatchRow(commandTokens, pathTokens, parameters);
          if allMatched {
            assert parameters == Bindings(commandTokens, pathTokens);
            return Some((h, parameters));
          }
          parameters := map[];
        }
      }
      i := i + 1;
    }
    return None;
  }

  // ----- The inverse

  /** The path of a template with its names filled in. */
  function Fill(template: seq<string>, values: Parameters): (path: seq<string>)
    requires Names(template) <= values.Keys
  {
    seq(|template|, i requires 0 <= i < |template| =>
      if IsParameter(template[i]) then
        assert template[i][1..] in Names(template);
        values[template[i][1..]]
      else template[i])
  }

  function Names(template: seq<string>): (names: set<string>)
  {
    set i | 0 <= i < |template| && IsParameter(template[i]) :: template[i][1..]
  }

  function Render(h: Handler, values: Parameters): (path: string)
    requires Names(Template(h)) <= values.Keys
  {
    [SEPARATOR] + Join(Fill(Template(h), values))
  }

  /** Values that can stand between two slashes. */
  predicate Usable(values: Parameters) {
    forall k :: k in values ==> Piece(values[k])
  }

  lemma {:induction false} FillBindings(template: seq<string>, values: Parameters)
    requires Names(template) == values.Keys
    ensures Matches(template, Fill(template, values)) && Bindings(template, Fill(template, values)) == values
  {
    var path := Fill(template, values);
    BindingsValues(template, path, values);
  }

  /** Bindings are the entries at the names, whatever path they come from. */
  lemma {:induction false} BindingsValues(template: seq<string>, path: seq<string>, values: Parameters)
    requires |template| == |path| && Names(template) <= values.Keys
    requires forall i :: 0 <= i < |template| && IsParameter(template[i]) ==> template[i][1..] in values && path[i] == values[template[i][1..]]
    ensures Bindings(template, path).Keys == Names(template)
    ensures forall k :: k in Bindings(template, path) ==> k in values && Bindings(template, path)[k] == values[k]
  {
    if template != [] {
      var n := |template| - 1;
      var init := template[..n];
      assert forall i :: 0 <= i < n ==> init[i] == template[i];
      assert Names(template) == Names(init) + if IsParameter(template[n]) then {template[n][1..]} else {} by {
        NamesSnoc(template);
      }
      BindingsValues(init, path[..n], values);
    }
  }

  lemma NamesSnoc(template: seq<string>)
    requires template != []
    ensures var n := |template| - 1;
            Names(template) == Names(template[..n]) + if IsParameter(template[n]) then {template[n][1..]} else {}
  {
    var n := |template| - 1;
    var init := template[..n];
    forall name | name in Names(template)
      ensures name in Names(init) + if IsParameter(template[n]) then {template[n][1..]} else {}
    {
      var i :| 0 <= i < |template| && IsParameter(template[i]) && template[i][1..] == name;
      if i < n {
        assert init[i] == template[i];
      }
    }
    forall name | name in Names(init) ensures name in Names(template) {
      var i :| 0 <= i < n && IsParameter(init[i]) && init[i][1..] == name;
      assert template[i] == init[i];
    }
  }

  /** A matching path is its template filled in with the bindings, and the bindings are the template's names. */
  lemma MatchIsFill(template: seq<string>, path: seq<string>)
    requires Matches(template, path) && DistinctNames(template)
    ensures Bindings(template, path).Keys == Names(template) && Fill(template, Bindings(template, path)) == path
  {
    var b := Bindings(template, path);
    BindingsOf(template, path);
  }

  predicate DistinctNames(template: seq<string>) {
    forall i, j :: 0 <= i < j < |template| && IsParameter(template[i]) && IsParameter(template[j]) ==> template[i] != template[j]
  }

  lemma NamesDiffer(s: string, t: string)
    requires IsParameter(s) && IsParameter(t) && s != t
    ensures s[1..] != t[1..]
  {
    assert s == ['$'] + s[1..] && t == ['$'] + t[1..];
  }

  lemma {:induction false} BindingsOf(template: seq<string>, path: seq<string>)
    requires |template| == |path| && DistinctNames(template)
    ensures Bindings(template, path).Keys == Names(template)
    ensures forall i :: 0 <= i < |template| && IsParameter(template[i]) ==>
              template[i][1..] in Bindings(template, path) && Bindings(template, path)[template[i][1..]] == path[i]
  {
    if template != [] {
      var n := |template| - 1;
      hide IsParameter, Names;
      var init := template[..n];
      assert forall i :: 0 <= i < n ==> init[i] == template[i];
      BindingsOf(init, path[..n]);
      NamesSnoc(template);
      forall i | 0 <= i < |template| && IsParameter(template[i])
        ensures template[i][1..] in Bindings(template, path) && Bindings(template, path)[template[i][1..]] == path[i]
      {
        if i < n {
          assert IsParameter(init[i]);
          if IsParameter(template[n]) {
            NamesDiffer(template[i], template[n]);
          }
        }
      }
    }
  }

  /** The length, first and last character of a word, which tell the words apart. */
  ghost function Outline(w: Word): (o: (nat, char, char))
  {
    match w
    case WSession => (7, 's', 'n')
    case WStatus => (6, 's', 's')
    case WTimeouts => (8, 't', 's')
    case WUrl => (3, 'u', 'l')
    case WBack => (4, 'b', 'k')
    case WForward => (7, 'f', 'd')
    case WRefresh => (7, 'r', 'h')
    case WTitle => (5, 't', 'e')
    case WWindow => (6, 'w', 'w')
    case WHandles => (7, 'h', 's')
    case WFrame => (5, 'f', 'e')
    case WParent => (6, 'p', 't')
    case WRect => (4, 'r', 't')
    case WElement => (7, 'e', 't')
    case WElements => (8, 'e', 's')
    case WActive => (6, 'a', 'e')
    case WSelected => (8, 's', 'd')
    case WAttribute => (9, 'a', 'e')
    case WProperty => (8, 'p', 'y')
    case WCss => (3, 'c', 's')
    case WText => (4, 't', 't')
    case WName => (4, 'n', 'e')
    case WEnabled => (7, 'e', 'd')
    case WClick => (5, 'c', 'k')
    case WClear => (5, 'c', 'r')
    case WValue => (5, 'v', 'e')
    case WExecute => (7, 'e', 'e')
    case WSync => (4, 's', 'c')
    case WAsync => (5, 'a', 'c')
    case WCookie => (6, 'c', 'e')
    case WAlert => (5, 'a', 't')
    case WDismiss => (7, 'd', 's')
    case WAccept => (6, 'a', 't')
    case WScreenshot => (10, 's', 't')
    case WDisplayed => (9, 'd', 'd')
  }

  lemma TextOutline(w: Word)
    ensures var s := Text(w); |s| > 0 && Outline(w) == (|s|, s[0], s[|s| - 1])
  {
  }

  lemma OutlineInjective(v: Word, w: Word)
    requires Outline(v) == Outline(w)
    ensures v == w
  {
  }

  lemma TextInjective(v: Word, w: Word)
    requires Text(v) == Text(w)
    ensures v == w
  {
    hide Text, Outline;
    TextOutline(v);
    TextOutline(w);
    OutlineInjective(v, w);
  }

  /** The word a path entry spells, if any. */
  ghost function Reading(s: string): (w: Option<Word>)
  {
    if exists w :: Text(w) == s then
      var w :| Text(w) == s;
      Some(w)
    else None
  }

  lemma ReadingText(w: Word)
    ensures Reading(Text(w)) == Some(w)
  {
    hide Text;
    TextInjective(w, Reading(Text(w)).value);
  }

  /** A decision tree that names the only handler a path could belong to, by the words in it. */
  ghost function Candidate(m: HTTPMethod, ws: seq<Option<Word>>): (h: Option<Handler>)
  {
    match m
    case Get =>
      if |ws| == 1 && ws[0] == Some(WStatus) then Some(Status)
      else if |ws| == 3 && ws[2] == Some(WTimeouts) then Some(GetTimeouts)
      else if |ws| == 3 && ws[2] == Some(WUrl) then Some(GetCurrentURL)
      else if |ws| == 3 && ws[2] == Some(WTitle) then Some(GetTitle)
      else if |ws| == 3 && ws[2] == Some(WWindow) then Some(GetWindowHandle)
      else if |ws| == 3 && ws[2] == Some(WCookie) then Some(GetAllCookies)
      else if |ws| == 3 && ws[2] == Some(WScreenshot) then Some(TakeScreenshot)
      else if |ws| == 4 && ws[2] == Some(WWindow) && ws[3] == Some(WHandles) then Some(GetWindowHandles)
      else if |ws| == 4 && ws[2] == Some(WWindow) && ws[3] == Some(WRect) then Some(GetWindowRect)
      else if |ws| == 4 && ws[2] == Some(WElement) && ws[3] == Some(WActive) then Some(GetActiveElement)
      else if |ws| == 4 && ws[2] == Some(WCookie) then Some(GetNamedCookie)
      else if |ws| == 4 && ws[2] == Some(WAlert) && ws[3] == Some(WText) then Some(GetAlertText)
      else if |ws| == 5 && ws[4] == Some(WSelected) then Some(IsElementSelected)
      else if |ws| == 5 && ws[4] == Some(WText) then Some(GetElementText)
      else if |ws| == 5 && ws[4] == Some(WName) then Some(GetElementTagName)
      else if |ws| == 5 && ws[4] == Some(WRect) then Some(GetElementRect)
      else if |ws| == 5 && ws[4] == Some(WEnabled) then Some(IsElementEnabled)
      else if |ws| == 5 && ws[4] == Some(WScreenshot) then Some(TakeElementScreenshot)
      else if |ws| == 5 && ws[4] == Some(WDisplayed) then Some(IsElementDisplayed)
      else if |ws| == 6 && ws[4] == Some(WAttribute) then Some(GetElementAttribute)
      else if |ws| == 6 && ws[4] == Some(WProperty) then Some(GetElementProperty)
      else if |ws| == 6 && ws[4] == Some(WCss) then Some(GetElementCSSValue)
      else None
    case Post =>
      if |ws| == 1 && ws[0] == Some(WSession) then Some(NewSession)
      else if |ws| == 3 && ws[2] == Some(WTimeouts) then Some(SetTimeouts)
      else if |ws| == 3 && ws[2] == Some(WUrl) then Some(Go)
      else if |ws| == 3 && ws[2] == Some(WBack) then Some(Back)
      else if |ws| == 3 && ws[2] == Some(WForward) then Some(Forward)
      else if |ws| == 3 && ws[2] == Some(WRefresh) then Some(Refresh)
      else if |ws| == 3 && ws[2] == Some(WWindow) then Some(SwitchToWindow)
      else if |ws| == 3 && ws[2] == Some(WFrame) then Some(SwitchToFrame)
      else if |ws| == 3 && ws[2] == Some(WElement) then Some(FindElement)
      else if |ws| == 3 && ws[2] == Some(WElements) then Some(FindElements)
      else if |ws| == 3 && ws[2] == Some(WCookie) then Some(AddCookie)
      else if |ws| == 4 && ws[2] == Some(WFrame) && ws[3] == Some(WParent) then Some(SwitchToParentFrame)
      else if |ws| == 4 && ws[2] == Some(WWindow) && ws[3] == Some(WRect) then Some(SetWindowRect)
      else if |ws| == 4 && ws[2] == Some(WExecute) && ws[3] == Some(WSync) then Some(ExecuteScript)
      else if |ws| == 4 && ws[2] == Some(WExecute) && ws[3] == Some(WAsync) then Some(ExecuteAsyncScript)
      else if |ws| == 4 && ws[2] == Some(WAlert) && ws[3] == Some(WDismiss) then Some(DismissAlert)
      else if |ws| == 4 && ws[2] == Some(WAlert) && ws[3] == Some(WAccept) then Some(AcceptAlert)
      else if |ws| == 4 && ws[2] == Some(WAlert) && ws[3] == Some(WText) then Some(SendAlertText)
      else if |ws| == 5 && ws[4] == Some(WElement) then Some(FindElementFromElement)
      else if |ws| == 5 && ws[4] == Some(WElements) then Some(FindElementsFromElement)
      else if |ws| == 5 && ws[4] == Some(WClick) then Some(ElementClick)
      else if |ws| == 5 && ws[4] == Some(WClear) then Some(ElementClear)
      else if |ws| == 5 && ws[4] == Some(WValue) then Some(ElementSendKeys)
      else None
    case Delete =>
      if |ws| == 2 && ws[0] == Some(WSession) then Some(DeleteSession)
      else if |ws| == 3 && ws[2] == Some(WWindow) then Some(CloseWindow)
      else if |ws| == 3 && ws[2] == Some(WCookie) then Some(DeleteAllCookies)
      else if |ws| == 4 && ws[2] == Some(WCookie) then Some(DeleteCookie)
      else None
  }

  /** The words of a path agree with a row. */
  ghost predicate Agrees(es: seq<Entry>, ws: seq<Option<Word>>)
  {
    |es| == |ws| && forall j :: 0 <= j < |ws| && es[j].Literal? ==> ws[j] == Some(es[j].word)
  }

  lemma AgreesGet(h: Handler, ws: seq<Option<Word>>)
    requires Method(h) == Get && Agrees(Entries(h), ws)
    ensures Candidate(Get, ws) == Some(h)
  {
  }

  lemma AgreesPost(h: Handler, ws: seq<Option<Word>>)
    requires Method(h) == Post && Agrees(Entries(h), ws)
    ensures Candidate(Post, ws) == Some(h)
  {
  }

  lemma AgreesDelete(h: Handler, ws: seq<Option<Word>>)
    requires Method(h) == Delete && Agrees(Entries(h), ws)
    ensures Candidate(Delete, ws) == Some(h)
  {
  }

  ghost function Readings(p: seq<string>): (ws: seq<Option<Word>>)
  {
    seq(|p|, i requires 0 <= i < |p| => Reading(p[i]))
  }

  lemma MatchesAgrees(h: Handler, p: seq<string>)
    requires Matches(Template(h), p)
    ensures Agrees(Entries(h), Readings(p))
  {
    hide Row, Entries, Text, Reading, IsParameter;
    forall j | 0 <= j < |p| && Entries(h)[j].Literal? ensures Reading(p[j]) == Some(Entries(h)[j].word) {
      EntryKind(Entries(h)[j]);
      assert Template(h)[j] == EntryText(Entries(h)[j]);
      ReadingText(Entries(h)[j].word);
    }
  }

  lemma MatchedCandidate(h: Handler, p: seq<string>)
    requires Matches(Template(h), p)
    ensures Candidate(Method(h), Readings(p)) == Some(h)
  {
    hide *;
    MatchesAgrees(h, p);
    match Method(h)
    case Get => AgreesGet(h, Readings(p));
    case Post => AgreesPost(h, Readings(p));
    case Delete => AgreesDelete(h, Readings(p));
  }

  /** No path belongs to two rows of one method, so their order does not matter. */
  lemma Unambiguous(g: Handler, h: Handler, p: seq<string>)
    requires Method(g) == Method(h) && Matches(Template(g), p) && Matches(Template(h), p)
    ensures g == h
  {
    hide *;
    MatchedCandidate(g, p);
    MatchedCandidate(h, p);
  }

  /** Every handler has a row. */
  lemma Listed(h: Handler) returns (row: nat)
    ensures row < ROWS && HandlerAt(row) == h
  {
    row := match h
      case NewSession => 0
      case DeleteSession => 1
      case Status => 2
      case GetTimeouts => 3
      case SetTimeouts => 4
      case Go => 5
      case GetCurrentURL => 6
      case Back => 7
      case Forward => 8
      case Refresh => 9
      case GetTitle => 10
      case GetWindowHandle => 11
      case CloseWindow => 12
      case SwitchToWindow => 13
      case GetWindowHandles => 14
      case SwitchToFrame => 15
      case SwitchToParentFrame => 16
      case GetWindowRect => 17
      case SetWindowRect => 18
      case FindElement => 19
      case FindElements => 20
      case FindElementFromElement => 21
      case FindElementsFromElement => 22
      case GetActiveElement => 23
      case IsElementSelected => 24
      case GetElementAttribute => 25
      case GetElementProperty => 26
      case GetElementCSSValue => 27
      case GetElementText => 28
      case GetElementTagName => 29
      case GetElementRect => 30
      case IsElementEnabled => 31
      case ElementClick => 32
      case ElementClear => 33
      case ElementSendKeys => 34
      case ExecuteScript => 35
      case ExecuteAsyncScript => 36
      case GetAllCookies => 37
      case GetNamedCookie => 38
      case AddCookie => 39
      case DeleteCookie => 40
      case DeleteAllCookies => 41
      case DismissAlert => 42
      case AcceptAlert => 43
      case GetAlertText => 44
      case SendAlertText => 45
      case TakeScreenshot => 46
      case TakeElementScreenshot => 47
      case IsElementDisplayed => 48;
  }

  lemma {:induction false} SearchFinds(m: HTTPMethod, p: seq<string>, from: nat, row: nat, h: Handler)
    requires from <= row < ROWS && HandlerAt(row) == h
    requires Method(h) == m && Matches(Template(h), p)
    ensures Search(m, p, from) == Some((h, Bindings(Template(h), p)))
    decreases ROWS - from
  {
    hide HandlerAt, Row, Template, Method, Matches, Bindings;
    if Method(HandlerAt(from)) == m && Matches(Template(HandlerAt(from)), p) {
      Unambiguous(HandlerAt(from), h, p);
    } else {
      SearchFinds(m, p, from + 1, row, h);
    }
  }

  lemma {:induction false} SearchMatches(m: HTTPMethod, p: seq<string>, from: nat)
    requires from <= ROWS
    ensures Search(m, p, from).Some? ==>
              var (h, b) := Search(m, p, from).value;
              Method(h) == m && Matches(Template(h), p) && b == Bindings(Template(h), p)
    decreases ROWS - from
  {
    hide HandlerAt, Row, Template, Method, Matches, Bindings;
    if from < ROWS {
      SearchMatches(m, p, from + 1);
    }
  }

  /**
   * A path is routed to a handler with some bindings exactly when its entries are that handler's
   * template with the bindings filled in.
   */
  lemma RoutingIsExact(m: HTTPMethod, path: string, h: Handler, b: Parameters)
    requires b.Keys == Names(Template(h))
    ensures Search(m, Tokens(path), 0) == Some((h, b)) <==> Method(h) == m && Tokens(path) == Fill(Template(h), b)
  {
    hide HandlerAt, Row, Template, Method, Matches, Bindings, Tokens, Fill;
    var p := Tokens(path);
    SearchMatches(m, p, 0);
    if Search(m, p, 0) == Some((h, b)) {
      TemplateNames(h);
      MatchIsFill(Template(h), p);
    }
    if Method(h) == m && p == Fill(Template(h), b) {
      FillBindings(Template(h), b);
      var row := Listed(h);
      SearchFinds(m, p, 0, row, h);
    }
  }

  lemma RoutedNames(m: HTTPMethod, path: string)
    requires Search(m, Tokens(path), 0).Some?
    ensures var (h, b) := Search(m, Tokens(path), 0).value; b.Keys == Names(Template(h))
  {
    hide HandlerAt, Row, Template, Method, Matches, Bindings, Tokens;
    SearchMatches(m, Tokens(path), 0);
    var (h, b) := Search(m, Tokens(path), 0).value;
    TemplateNames(h);
    MatchIsFill(Template(h), Tokens(path));
  }

  lemma FillPieces(h: Handler, values: Parameters)
    requires Names(Template(h)) <= values.Keys && Usable(values)
    ensures Pieces(Fill(Template(h), values))
  {
    TemplatePieces(h);
    hide HandlerAt, Row, Template, Piece;
  }

  /** Writing a command as a path and looking the path up gives back the command and its values. */
  lemma RoutingInverts(h: Handler, values: Parameters)
    requires values.Keys == Names(Template(h)) && Usable(values)
    ensures Search(Method(h), Tokens(Render(h, values)), 0) == Some((h, values))
  {
    hide HandlerAt, Row, Template, Method, Matches, Bindings, Fill, Search, NonEmpty, Split, Join, Pieces, Piece;
    FillPieces(h, values);
    AbsoluteEntries(Fill(Template(h), values));
    NonEmptyRooted(Fill(Template(h), values));
    RoutingIsExact(Method(h), Render(h, values), h, values);
  }
}
