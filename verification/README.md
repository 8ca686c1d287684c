# Verified models of WebKitGTK components

Dafny models of five parts of WebKitGTK, with machine-checked proofs about all inputs and all runs.
`dafny verify dfyconfig.toml` checks the whole project.

| modules | what they model |
|---|---|
| `KeywordTrie`, `KeywordCompare`, `SiblingOrder`, `KeywordEmit`, `KeywordCost`, `KeywordObjects` | the generator of the JavaScript keyword lexer: trie, compression, sibling order, emitted decision tree and its packed word comparisons |
| `Agents`, `AgentObjects`, `ModulePath` | the jsc shell: the broadcast and report protocol of agents, and module path resolution |
| `Session`, `SessionLedger`, `SessionSteps`, `SessionWindows`, `SessionPrompts`, `SessionClose`, `SessionDisconnect`, `SessionRuns`, `SessionHost`, `SendKeys`, `ScriptValues`, `Routing`, `Capabilities` | the WebDriver remote end: pending commands, windows and frames, user prompts, closing, disconnection, key input, script results, request routing, capability negotiation |
| `StaticFunctions` | static functions that a callback object makes when they are first read |
| `RefCounts` | reference counts of contexts, context groups and `JSRetainPtr` |
| `Wrappers`, `Json` | `Option` and JSON values |

## How the parts are modelled

- The keyword generator is written twice: as values, where its meaning is proved, and as linked `Trie`
  objects whose methods update each other as the Python class does and are proved to compute those values.
  The emitted C++ is a syntax tree with an evaluator that reads memory byte by byte.
- Agents are a state machine whose steps are the critical sections, with an explicit wait set; any number of
  threads may interleave. The objects are classes whose methods are the critical sections; each is proved to
  perform the matching step, so that everything proved about runs holds of them.
- A WebDriver session is a state whose pending table maps command numbers to continuation records
  (`Completion`, `Frame`, `Kind`), one constructor for each lambda of the source. Reading an optional that is
  not set, which aborts the program, sets `crashed`. The browser is the environment: it may answer in any order
  with anything, open dialogs and go away.
- `RefCounts.Holdings` is what the client holds (its own retains and its smart pointers). Nothing in
  `Holdings` mentions a count; the class `Engine` keeps counts as the C++ does, and balance between the two is
  kept after every statement.
- `StaticFunctions` compares the lazily filled object with an object that has all functions from the start.
  Programs are sequences of reads and writes whose operands may be results of earlier reads.

## What is proved, and what turned out not to hold

- The generated keyword parser answers as the specification on every buffer of at least `maxTokenLength`
  characters, on every CPU variant and both character widths; `maxTokenLength` is exact; no other order of
  siblings in the whole tree gives code that fails fewer comparisons over the words of the trie, each counted as
  often as it occurs (`KeywordCost.FewestFailures`).
- Module resolution composes (`ModulePath.ComposesIffRelative`) exactly for names that are not rooted. The
  empty name counts as rooted, because splitting an empty string gives one empty entry. A resolved path
  resolves to itself exactly when the directory holds no `.` or `..` (`ModulePath.IdempotentIffPlain`).
- Every accepted WebDriver request is answered once or owned by one pending entry. On disconnection each
  pending handler is called once. With a window set, requests whose handler sends a further command instead of
  answering stay unanswered; without one, every request is answered unless a click still to press the mouse reads
  the unset window. `SessionDisconnect.DisconnectAnswers` has the exact conditions. A new session reaches both
  failures: `SessionRuns.LeavesUnanswered` loses the browser while an alert is to be reported,
  `SessionRuns.PressesAfterDelete` while a click has been overtaken by the deletion of its session.
- An answer crashes the program exactly when its handler reads an unset window, frame or session
  (`SessionSteps.CrashesIff`). Commands may overlap as long as closing a window, deleting the session and going to
  the parent frame are done alone (`SessionWindows.OverlapIsSafe`); each of the three is
  needed: `SessionWindows.OverlapCrashes`, `SessionRuns.WaitingCrashes` and `SessionRuns.ParentFrameCrashes` give runs
  of a new session in which overtaking by it, or overtaking it, crashes.
- Guarded commands send their messages only while no dialog is open. A click is not guarded itself: the mouse is
  pressed under an open dialog exactly when prompts are ignored or the browser refuses to close it
  (`SessionPrompts.ClickUnderDialog`).
- Static functions are transparent with non-null callbacks. With null callbacks this holds exactly when the
  first table that lists a name and the first that supplies a callback agree on read-only
  (`StaticFunctions.TransparentIffAgreeing`). In strict mode a write to a read-only function is refused silently
  before the function exists and throws afterwards, so thrown errors agree exactly when, besides, no function is
  read-only (`StaticFunctions.IndistinguishableIffWritable`). `JSContextRef.cpp`'s rule that a group lives iff it or one
  of its contexts is retained holds after every sequence of calls.

## Model

| member | source | states |
|---|---|---|
| `KeywordTrie.InsertFind` | Source/JavaScriptCore/KeywordLookupGenerator.py:103-109 | after an insertion the inserted word has the new token and every other word the old answer |
| `KeywordTrie.BuildMeaning` | Source/JavaScriptCore/KeywordLookupGenerator.py:214-217 | the trie built from a table answers for every word as the table does, a later row winning |
| `KeywordTrie.CoalesceAllMaps` | Source/JavaScriptCore/KeywordLookupGenerator.py:111-117 | storing compressed children under their labels overwrites none: they map one to one and stay apart by first character |
| `KeywordTrie.CoalesceShape` | Source/JavaScriptCore/KeywordLookupGenerator.py:111-126 | compression keeps labels non-empty with pairwise distinct first characters at every node |
| `KeywordTrie.CoalesceCompresses` | Source/JavaScriptCore/KeywordLookupGenerator.py:111-126 | after compression every node below the root has a token or at least two children |
| `KeywordTrie.CoalesceFind` | Source/JavaScriptCore/KeywordLookupGenerator.py:111-126 | compression changes the answer for no word, in the node kept and in the node returned |
| `KeywordCompare.LoadPair` | Source/JavaScriptCore/KeywordLookupGenerator.py:224-263 | a two-character load in either byte order equals the packed pair of the characters read |
| `KeywordCompare.LoadQuad` | Source/JavaScriptCore/KeywordLookupGenerator.py:224-263 | a four-character load equals the packed quad of the characters read |
| `KeywordCompare.PairInjective` | Source/JavaScriptCore/KeywordLookupGenerator.py:224-263 | two packed pairs are equal iff the characters are, casts and wrap-around included |
| `KeywordCompare.QuadInjective` | Source/JavaScriptCore/KeywordLookupGenerator.py:224-263 | two packed quads are equal iff the characters are |
| `KeywordCompare.Compare4IsEqual` | Source/JavaScriptCore/KeywordLookupGenerator.py:224-281 | the four-character test is equality of four characters on each CPU variant |
| `KeywordCompare.CompareIsEqual` | Source/JavaScriptCore/KeywordLookupGenerator.py:224-302 | every test of one to eight characters, the overlapping one of seven included, is equality of the characters |
| `SiblingOrder.SortedSorts` | Source/JavaScriptCore/KeywordLookupGenerator.py:128-138 | sorting siblings rearranges them in descending weight |
| `SiblingOrder.OrderSorts` | Source/JavaScriptCore/KeywordLookupGenerator.py:136-138 | sorting positions by stored weight gives the same order as sorting the subtries |
| `SiblingOrder.FillOutReorders` | Source/JavaScriptCore/KeywordLookupGenerator.py:128-138 | fillOut only rearranges siblings, at every depth |
| `SiblingOrder.ReorderedFind` | Source/JavaScriptCore/KeywordLookupGenerator.py:128-138 | no rearrangement of siblings changes the answer for any word |
| `SiblingOrder.ReorderedWeight` | Source/JavaScriptCore/KeywordLookupGenerator.py:128-138 | subtree weights do not depend on sibling order |
| `SiblingOrder.DescendingIsCheapest` | Source/JavaScriptCore/KeywordLookupGenerator.py:136-138 | among all orders of the same weights a descending one has the least weighted number of failed tests |
| `SiblingOrder.FillOutIsCheapest` | Source/JavaScriptCore/KeywordLookupGenerator.py:41-60 | the tree fillOut produces costs no more failed tests than any rearrangement of any of its nodes |
| `KeywordEmit.ProbeIsLabel` | Source/JavaScriptCore/KeywordLookupGenerator.py:150-168 | the emitted test for a label, widened from three to four characters or not, holds iff the label comes next |
| `KeywordEmit.CompilableIff` | Source/JavaScriptCore/KeywordLookupGenerator.py:150-190 | the emitted code uses only existing comparison macros iff all labels have one to eight characters |
| `KeywordEmit.ReservedLengthSuffices` | Source/JavaScriptCore/KeywordLookupGenerator.py:176-190 | a buffer longer than the longest path covers every read of the emitted code |
| `KeywordEmit.ReservedLengthNeeded` | Source/JavaScriptCore/KeywordLookupGenerator.py:176-190 | a buffer that covers every read is longer than the longest path |
| `KeywordEmit.ReservedLengthIsExact` | Source/JavaScriptCore/KeywordLookupGenerator.py:176-190 | for every non-empty table maxTokenLength is the least length that covers every read |
| `KeywordEmit.EmitFinds` | Source/JavaScriptCore/KeywordLookupGenerator.py:140-174 | running a node's block finds what its trie stores for the rest of the identifier |
| `KeywordEmit.AnyOrderIsCorrect` | Source/JavaScriptCore/KeywordLookupGenerator.py:140-174 | whatever the order of siblings, the emitted code returns the token of the maximal identifier at the cursor, or IDENT |
| `KeywordCost.EmitMisses` | Source/JavaScriptCore/KeywordLookupGenerator.py:140-174 | on every buffer the emitted code of a node fails as many comparisons as labels are passed over on the way of the identifier down the trie |
| `KeywordCost.ExpectedIsCost` | Source/JavaScriptCore/KeywordLookupGenerator.py:128-138 | passed labels over all words of a trie, weighted by frequency, are the cost of its sibling order plus what no order can save |
| `KeywordCost.FewestFailures` | Source/JavaScriptCore/KeywordLookupGenerator.py:128-174 | run on buffers that spell the words of its trie, the generated parser fails no more comparisons, weighted by frequency, than the code emitted for any other order of siblings |
| `KeywordEmit.GeneratedParserIsCorrect` | Source/JavaScriptCore/KeywordLookupGenerator.py:214-219 | insert, coalesce, fillOut and print together give a parser that meets the specification on every long enough buffer |
| `KeywordObjects.Trie.constructor` | Source/JavaScriptCore/KeywordLookupGenerator.py:98-101 | a new node has a label, no token and no children |
| `KeywordObjects.Trie.Insert` | Source/JavaScriptCore/KeywordLookupGenerator.py:103-109 | the linked nodes stand for the trie with the word inserted |
| `KeywordObjects.Trie.CoalesceKeys` | Source/JavaScriptCore/KeywordLookupGenerator.py:112-117 | the loop replaces every child by what its own compression returns |
| `KeywordObjects.Trie.Coalesce` | Source/JavaScriptCore/KeywordLookupGenerator.py:111-126 | the node left in place and the node returned stand for the two compressed tries |
| `KeywordObjects.Trie.FillOut` | Source/JavaScriptCore/KeywordLookupGenerator.py:128-138 | in place, with no new nodes, the trie becomes the sorted one and its weight is the sum over its words |
| `KeywordObjects.Trie.PrintSubTree` | Source/JavaScriptCore/KeywordLookupGenerator.py:140-174 | the statements printed are those of the decision tree |
| `KeywordObjects.Trie.LongestPath` | Source/JavaScriptCore/KeywordLookupGenerator.py:176-182 | the loop finds the longest path |
| `KeywordObjects.LoadTable` | Source/JavaScriptCore/KeywordLookupGenerator.py:214-217 | the loop inserts the rows in order |
| `KeywordObjects.RunGenerator` | Source/JavaScriptCore/KeywordLookupGenerator.py:214-219 | the objects' run prints the decision tree proved correct and its exact maxTokenLength |
| `Agents.StepKeepsInv` | Source/JavaScriptCore/jsc.cpp:2486-2573 | each critical section keeps: messages taken and queued are the others' broadcasts since joining, in lock order; reports are taken once and in order; nobody sleeps who has something to take |
| `Agents.RunKeepsInv` | Source/JavaScriptCore/jsc.cpp:2486-2573 | every interleaving of any number of threads keeps that |
| `Agents.SleeperHasEverything` | Source/JavaScriptCore/jsc.cpp:2507-2513 | a thread asleep in dequeue has received every broadcast other threads made since it joined |
| `Agents.JoinedHears` | Source/JavaScriptCore/jsc.cpp:2541-2550 | every broadcast made after a thread joined and before it left is among the messages it took or still has queued, behind exactly the earlier ones due to it |
| `Agents.StartedChildHears` | Source/JavaScriptCore/jsc.cpp:2620-2668 | once agent.start has returned, every broadcast of the starter reaches the new agent unless it has left |
| `AgentObjects.Workers.Append` | Source/JavaScriptCore/jsc.cpp:2486-2493 | constructing a worker performs the machine's registration step: the objects show the state of the run extended by it |
| `AgentObjects.Workers.Remove` | Source/JavaScriptCore/jsc.cpp:2495-2500 | the search and unlinking perform the leaving step, taking out that worker and keeping the order of the others |
| `AgentObjects.Workers.Broadcast` | Source/JavaScriptCore/jsc.cpp:2541-2550 | the walk over the list performs the sending step on all queues at once |
| `AgentObjects.Workers.Dequeue` | Source/JavaScriptCore/jsc.cpp:2507-2513 | one test of the loop performs the dequeue step: the message returned is the next one received, and nothing is returned iff the thread is left asleep |
| `AgentObjects.Workers.Report` | Source/JavaScriptCore/jsc.cpp:2552-2557 | performs the report step, which wakes whoever waits |
| `AgentObjects.Workers.TryGetReport` | Source/JavaScriptCore/jsc.cpp:2559-2565 | performs the step that hands out the next report in order, if there is one |
| `AgentObjects.Workers.GetReport` | Source/JavaScriptCore/jsc.cpp:2567-2573 | the same, and nothing is returned iff the thread is left asleep |
| `AgentObjects.Workers.Perform` | Source/JavaScriptCore/jsc.cpp:2486-2573 | every step the machine can take is performed by one of the critical sections on the thread's own worker, or leaves the objects alone, so the objects follow every run |
| `AgentObjects.Workers.Exact` | Source/JavaScriptCore/jsc.cpp:2486-2573 | after any critical sections of any threads, each worker object's queue completes what it received to what is due to it, reports are handed out once and in order, and nobody sleeps who has something to take |
| `ModulePath.SplitString` | Source/WTF/wtf/text/WTFString.cpp:746-767 | the loop gives the entries between separators, without the empty ones unless they are asked for |
| `ModulePath.SplitJoin` | Source/JavaScriptCore/jsc.cpp:1596-1621 | splitting a joined path gives back its pieces |
| `ModulePath.JoinSplit` | Source/JavaScriptCore/jsc.cpp:1532-1536 | joining the entries of a name gives back the name, empty entries included |
| `ModulePath.WalkQueries` | Source/JavaScriptCore/jsc.cpp:1605-1611 | the loop pushes, pops and skips as the queries say |
| `ModulePath.ResolvePath` | Source/JavaScriptCore/jsc.cpp:1596-1621 | the loops compute the resolved path |
| `ModulePath.ExtractDirectoryName` | Source/JavaScriptCore/jsc.cpp:1538-1555 | the directory is what lies up to the first separator and between it and the last, if there is one |
| `ModulePath.AbsoluteDirectory` | Source/JavaScriptCore/jsc.cpp:1538-1555 | the directory of an absolute path drops its last piece |
| `ModulePath.RelativeComposes` | Source/JavaScriptCore/jsc.cpp:1532-1621 | resolving y against the directory of the resolved x is resolving x/../y, for every x and every y that is not rooted |
| `ModulePath.RootedFails` | Source/JavaScriptCore/jsc.cpp:1521-1530 | for every rooted y there is a directory from which that fails |
| `ModulePath.ComposesIffRelative` | Source/JavaScriptCore/jsc.cpp:1521-1621 | resolution composes for all directories and names iff y is neither empty nor starts with a separator |
| `ModulePath.IdempotentIffPlain` | Source/JavaScriptCore/jsc.cpp:1596-1621 | resolved paths resolve to themselves for every name iff the directory holds no dot pieces |
| `SessionLedger.HandlerPasses` | Source/WebDriver/Session.cpp:79-304 | any handler, on any answer, answers its request once or hands it to exactly one new pending entry |
| `SessionLedger.CommandPasses` | Source/WebDriver/WebDriverService.cpp:745-1676 | accepting a command answers it or leaves it with one pending entry |
| `SessionLedger.TakeKeepsLedger` | Source/WebDriver/SessionHost.cpp:65-94 | dispatching an answer keeps the ledger, touches no other entry and adds at most one with the next number |
| `SessionLedger.FlushKeepsLedger` | Source/WebDriver/SessionHost.cpp:33-42 | the flush calls exactly the handlers pending at that moment, once each; entries left over were sent during it |
| `SessionLedger.StepKeepsLedger` | Source/WebDriver/SessionHost.cpp:33-94 | every event keeps: each accepted request is answered once or owned by one entry under a number used once |
| `SessionLedger.RunKeepsLedger` | Source/WebDriver/Session.cpp:79-304 | so does every run, overlapping commands and disconnections included |
| `SessionLedger.FreshKeepsLedger` | Source/WebDriver/Session.cpp:79-304 | in every run of a new session each accepted request is answered once or owned by one pending entry, under a number used once |
| `SessionSteps.CompleteWorks` | Source/WebDriver/Session.cpp:79-304 | handing a result to any completion handler that can be pending crashes iff the window, frame or session it reads next is unset, and otherwise sends at most one message and moves the session only as its command may |
| `SessionSteps.HandlerWorks` | Source/WebDriver/Session.cpp:79-673 | the same for every response handler and every answer |
| `SessionSteps.CommandWorks` | Source/WebDriver/WebDriverService.cpp:745-1676 | accepting a command never crashes |
| `SessionSteps.RunShaped` | Source/WebDriver/Session.cpp:79-304 | in every run of any events the pending handlers have one of the listed shapes |
| `SessionSteps.CrashesIff` | Source/WebDriver/Session.cpp:79-673 | in every state a new session can reach, overlapping commands included, an answer crashes the program iff its handler reads something unset; requests never do |
| `SessionWindows.StepSafe` | Source/WebDriver/Session.cpp:130-143 | with window closing, deletion and going to the parent frame done alone, every event leaves each pending handler what it reads |
| `SessionWindows.OverlapIsSafe` | Source/WebDriver/Session.cpp:130-143 | all other overlaps of commands never crash, whatever the browser answers |
| `SessionWindows.StepSolo` | Source/WebDriver/Session.cpp:130-143 | with one command at a time each event keeps the frame one of the current window |
| `SessionWindows.RunSolo` | Source/WebDriver/Session.cpp:579-673 | in every run of one command at a time of a new session no unset window is read, and the frame, while a window is set, was resolved against that window |
| `SessionWindows.OverlapCrashes` | Source/WebDriver/Session.cpp:515-530 | every guarded command overtaken by the closing of its window crashes, in each of the runs given |
| `SessionPrompts.StepGuarded` | Source/WebDriver/Session.cpp:186-274 | every event of a truthful browser keeps guarded commands from sending under a dialog |
| `SessionPrompts.RunUnobstructed` | Source/WebDriver/Session.cpp:186-274 | in every run of a new session a guarded command's first message is sent only while no dialog is open, and all its messages if no dialog opens between them |
| `SessionPrompts.ClosedThenRun` | Source/WebDriver/Session.cpp:186-229 | accept and dismiss close the dialog and then run the command; if closing is refused the command fails and the dialog stays |
| `SessionPrompts.ClosedThenNotified` | Source/WebDriver/Session.cpp:231-274 | the notify forms read the text, close the dialog and fail the command with the alert, or with the refusal to close |
| `SessionPrompts.Ignored` | Source/WebDriver/Session.cpp:210-274 | ignore fails the command with the alert and leaves the dialog open |
| `SessionPrompts.TagThenPress` | Source/WebDriver/Session.cpp:1451-1496 | whatever becomes of reading the tag name behind the prompt check, the mouse is pressed; under the dialog iff one was open and is ignored or could not be closed |
| `SessionPrompts.ClickUnderDialog` | Source/WebDriver/Session.cpp:1451-1496 | the same for the whole run from the click command on, for every behaviour and every browser |
| `SessionClose.ServeCloses` | Source/WebDriver/Session.cpp:79-108 | each answer while closing shrinks a measure of the open windows or ends with a reply that is truthful |
| `SessionClose.DeleteEnds` | Source/WebDriver/Session.cpp:79-108 | closing a session with n windows is answered within 2n+1 answers, and success means no window is left or the browser has quit |
| `SessionDisconnect.FailureEnds` | Source/WebDriver/Session.cpp:186-304 | a failure reaching a continuation crashes iff no window is set and a press is to come, is forwarded iff a window is set and a notify form or click waits in it, and is answered otherwise |
| `SessionDisconnect.FlushEnds` | Source/WebDriver/SessionHost.cpp:33-42 | the same for every handler of a flush, in any order |
| `SessionDisconnect.DisconnectAnswers` | Source/WebDriver/SessionHost.cpp:33-42 | disconnection crashes iff no window is set and a click is still to press the mouse; otherwise a pending request is answered iff no window is set or its handler does not insist on one more message |
| `SessionDisconnect.DisconnectAfterRun` | Source/WebDriver/SessionHost.cpp:33-42 | the same at the end of any run of a new session, whatever the browser says |
| `SessionRuns.LeavesUnanswered` | Source/WebDriver/Session.cpp:231-255 | a new session with a notify behaviour loses the browser while it asks for the text of an alert: whatever the guarded command, it gets no answer and stays pending under a new number |
| `SessionRuns.PressesAfterDelete` | Source/WebDriver/Session.cpp:1451-1496 | a click overtaken by the deletion of its session leaves no window and a press to come, so losing the browser crashes, in whatever order the handlers are called |
| `SessionRuns.WaitingCrashes` | Source/WebDriver/WebDriverService.cpp:774-781 | any command that waits for navigation and is overtaken by the deletion of its session crashes iff the wait succeeds or its frame is gone |
| `SessionRuns.ParentFrameCrashes` | Source/WebDriver/Session.cpp:639-673 | going to the parent frame, overtaken by a navigation that leaves the frame, reads the unset frame |
| `SessionHost.Host.SendCommandToBackend` | Source/WebDriver/SessionHost.cpp:44-63 | the command gets the next number, which was not in the table, and its handler is stored under it |
| `SessionHost.ReadResponse` | Source/WebDriver/SessionHost.cpp:80-91 | an answer is an error iff it has an error object, which hides any result; a result without fields counts as none |
| `SessionHost.Host.DispatchMessage` | Source/WebDriver/SessionHost.cpp:65-94 | text, values and objects without a number change nothing; otherwise the handler is taken out of the table before it is called with what the message holds |
| `SessionHost.Host.InspectorDisconnected` | Source/WebDriver/SessionHost.cpp:33-42 | the loop over copied keys is the flush over every key, in some order |
| `SessionHost.ReadHandles` | Source/WebDriver/Session.cpp:546-577 | the loop collects the handles, or fails at the first context without one |
| `SessionHost.NoHandles` | Source/WebDriver/Session.cpp:546-577 | one context without a handle spoils the whole list |
| `SendKeys.TypeKeys` | Source/WebDriver/Session.cpp:1687-1706 | the interactions match the keys one to one, and the sticky bits are the modifiers typed an odd number of times |
| `SendKeys.ResetSticky` | Source/WebDriver/Session.cpp:1707-1718 | one release is appended for each modifier still held |
| `SendKeys.ReleasesAreExact` | Source/WebDriver/Session.cpp:1707-1718 | the releases are of exactly the held modifiers, each once |
| `SendKeys.Interactions` | Source/WebDriver/Session.cpp:1687-1718 | each modifier alternates press and release from press on and ends released; the tail releases exactly those typed an odd number of times |
| `ScriptValues.ConvertShape` | Source/WebDriver/Session.cpp:1725-1749 | conversion keeps array lengths and, outside element references, object keys |
| `ScriptValues.ConvertClears` | Source/WebDriver/Session.cpp:1725-1749 | the output holds no session-node reference at any depth |
| `ScriptValues.ConvertIdentity` | Source/WebDriver/Session.cpp:1725-1749 | a value without references is left alone |
| `ScriptValues.ConvertIdempotent` | Source/WebDriver/Session.cpp:1725-1749 | converting twice is converting once, and a value is unchanged iff it holds no reference |
| `ScriptValues.RoundTrip` | Source/WebDriver/Session.cpp:814-853 | conversion undoes extractElement for every client element with a non-empty id, up to fields other than the id |
| `ScriptValues.HandleScriptResult` | Source/WebDriver/Session.cpp:1725-1749 | the loops compute the conversion |
| `Routing.MatchRow` | Source/WebDriver/WebDriverService.cpp:190-196 | the loop that stops at the first difference decides the match and adds the bindings to those already there |
| `Routing.FindCommand` | Source/WebDriver/WebDriverService.cpp:176-207 | the search returns the first matching row with that row's bindings alone, although rows that fail have bound names in the same map |
| `Routing.Unambiguous` | Source/WebDriver/WebDriverService.cpp:100-161 | no path matches two templates of one method |
| `Routing.RoutingIsExact` | Source/WebDriver/WebDriverService.cpp:100-207 | a path goes to a handler with some bindings iff its entries are the handler's template with those bindings filled in |
| `Routing.RoutedNames` | Source/WebDriver/WebDriverService.cpp:176-207 | the bindings returned are of exactly the names in the template |
| `Routing.RoutingInverts` | Source/WebDriver/WebDriverService.cpp:100-207 | writing a command with non-empty slash-free values as a path and looking it up gives back the command and the values |
| `Capabilities.DeserializeTimeouts` | Source/WebDriver/WebDriverService.cpp:291-315 | in whatever order the fields come, timeouts are read iff every field but sessionId is a known one with a whole number in range |
| `Capabilities.ValidatedField` | Source/WebDriver/WebDriverService.cpp:397-430 | a field is accepted iff it is of its key's type and readable, and kept unless it is the proxy |
| `Capabilities.ValidatedCapabilities` | Source/WebDriver/WebDriverService.cpp:389-433 | in whatever order, an object is accepted iff each field is null or valid, and keeps what is neither null nor the proxy |
| `Capabilities.ValidatedKeeps` | Source/WebDriver/WebDriverService.cpp:389-433 | validation keeps exactly the values asked for and is idempotent |
| `Capabilities.MergeCapabilities` | Source/WebDriver/WebDriverService.cpp:435-449 | the loops give the union, the second object winning |
| `Capabilities.MatchCapabilities` | Source/WebDriver/WebDriverService.cpp:451-511 | the port's values overridden by the request iff no field mismatches, else the complaint about a mismatching field |
| `Capabilities.FindShadowed` | Source/WebDriver/WebDriverService.cpp:575-585 | a key in both objects is found iff there is one |
| `Capabilities.ValidateOffers` | Source/WebDriver/WebDriverService.cpp:556-588 | all entries of firstMatch validate without shadowing, or one failure says what is wrong with the first that does not |
| `Capabilities.ChooseOffer` | Source/WebDriver/WebDriverService.cpp:590-609 | the lowest-indexed entry that can be met is taken, or one failure is reported whose reason is the mismatch of a field of an entry |
| `Capabilities.ProcessCapabilities` | Source/WebDriver/WebDriverService.cpp:513-609 | the completion handler is called exactly once iff nothing is returned, with the first thing wrong with the request; what is returned is the port's values overridden by alwaysMatch joined with the first entry that can be met |
| `Capabilities.PreparedValid` | Source/WebDriver/WebDriverService.cpp:513-588 | in a well-formed request all capabilities are valid and the join with any entry is disjoint |
| `Capabilities.ResultHolds` | Source/WebDriver/WebDriverService.cpp:389-511 | under every key but the proxy the result holds what was requested, or else the port's value |
| `Capabilities.ParsedResult` | Source/WebDriver/WebDriverService.cpp:343-371 | parsing loses no requested timeouts, strategy, prompt behaviour, name or flag and invents none |
| `Capabilities.NegotiatedHonours` | Source/WebDriver/WebDriverService.cpp:343-609 | from request to parsed capabilities: alwaysMatch and the entry taken, the first of firstMatch that can be met, are honoured |
| `StaticFunctions.CallbackObject.FindEntry` | Source/JavaScriptCore/API/JSCallbackObjectFunctions.h:288-297 | the walk over the class chain finds the nearest table entry |
| `StaticFunctions.CallbackObject.GetOwnProperty` | Source/JavaScriptCore/API/JSCallbackObjectFunctions.h:195-204 | reading a listed name goes through the getter, any other name to ordinary storage |
| `StaticFunctions.CallbackObject.StaticFunctionGetter` | Source/JavaScriptCore/API/JSCallbackObjectFunctions.h:639-666 | the stored value, else a new function stored with its entry's attributes, else a reference error |
| `StaticFunctions.CallbackObject.PutProperty` | Source/JavaScriptCore/API/JSCallbackObjectFunctions.h:288-302 | a stored name is put as usual; otherwise a read-only entry refuses and a writable one is overridden |
| `StaticFunctions.GetRefines` | Source/JavaScriptCore/API/JSCallbackObjectFunctions.h:639-666 | reading changes nothing visible and sees what the filled object has |
| `StaticFunctions.PutRefines` | Source/JavaScriptCore/API/JSCallbackObjectFunctions.h:288-297 | writing does to the filled object what it does to the lazy one; only a strict write to a read-only name may differ in throwing |
| `StaticFunctions.RunRefines` | Source/JavaScriptCore/API/JSCallbackObjectFunctions.h:195-297 | every program gets the same outcomes from both, functions identified by name, each made once |
| `StaticFunctions.RefinesEager` | Source/JavaScriptCore/API/JSCallbackObjectFunctions.h:195-297 | with non-null callbacks every program sees an ordinary object with all functions present |
| `StaticFunctions.TransparentIffAgreeing` | Source/JavaScriptCore/API/JSCallbackObjectFunctions.h:288-297 | with null callbacks allowed, no program can tell the memo iff deciding and supplying entries agree on read-only |
| `StaticFunctions.ReadIsInvisible` | Source/JavaScriptCore/API/JSCallbackObjectFunctions.h:639-666 | an extra read at any point changes no later outcome |
| `StaticFunctions.ReadsAreStable` | Source/JavaScriptCore/API/JSCallbackObjectFunctions.h:639-666 | reads between writes to a name, and all reads of a read-only name, return one function object |
| `StaticFunctions.IndistinguishableIffWritable` | Source/JavaScriptCore/API/JSCallbackObjectFunctions.h:288-297 | thrown errors agree as well iff the tables agree on read-only and no function is read-only |
| `RefCounts.LivesIff` | Source/JavaScriptCore/API/JSContextRef.cpp:62-66 | a group's count is positive iff the group or one of its contexts is retained |
| `RefCounts.Engine.CreateGroup` | Source/JavaScriptCore/API/JSContextRef.cpp:67-71 | a new group has one retain, owned by the caller |
| `RefCounts.Engine.RetainGroup` | Source/JavaScriptCore/API/JSContextRef.cpp:73-77 | one direct retain more, counts balanced |
| `RefCounts.Engine.ReleaseGroup` | Source/JavaScriptCore/API/JSContextRef.cpp:79-85 | one direct retain less, counts balanced |
| `RefCounts.Engine.CreateContext` | Source/JavaScriptCore/API/JSContextRef.cpp:132-160 | a new context has one retain and its group one reference for it, the temporary one gone |
| `RefCounts.Engine.RetainContext` | Source/JavaScriptCore/API/JSContextRef.cpp:162-171 | one context retain more, in the protect count and in the group's count |
| `RefCounts.Engine.ReleaseContext` | Source/JavaScriptCore/API/JSContextRef.cpp:173-183 | one context retain less, in both counts |
| `RefCounts.Engine.ConstructPointer` | Source/JavaScriptCore/API/JSRetainPtr.h:46 | a pointer made from a raw reference owns a retain of its own |
| `RefCounts.Engine.ConstructAdopted` | Source/JavaScriptCore/API/JSRetainPtr.h:47 | an adopting pointer takes over a retain of the caller |
| `RefCounts.Engine.CopyPointer` | Source/JavaScriptCore/API/JSRetainPtr.h:85-97 | a copy owns a retain of its own |
| `RefCounts.Engine.DestroyPointer` | Source/JavaScriptCore/API/JSRetainPtr.h:99-103 | the destructor gives the pointer's retain back |
| `RefCounts.Engine.ClearPointer` | Source/JavaScriptCore/API/JSRetainPtr.h:105-111 | clearing gives the retain back and leaves a null pointer |
| `RefCounts.Engine.LeakPointer` | Source/JavaScriptCore/API/JSRetainPtr.h:113-118 | leaking hands the retain to the caller |
| `RefCounts.Engine.AssignPointer` | Source/JavaScriptCore/API/JSRetainPtr.h:120-142 | assignment, also to itself, retains the new target and gives back the old, never using a dead group |
| `RefCounts.Engine.AssignContext` | Source/JavaScriptCore/API/JSRetainPtr.h:144-153 | the same from a raw reference |
| `RefCounts.Engine.AdoptContext` | Source/JavaScriptCore/API/JSRetainPtr.h:155-161 | adopting takes over the caller's retain and gives back the old one |
| `RefCounts.Engine.SwapPointers` | Source/JavaScriptCore/API/JSRetainPtr.h:174-177 | swapping, also with itself, changes no count |
| `RefCounts.Engine.PerformAll` | Source/JavaScriptCore/API/JSContextRef.cpp:62-183 | after any permitted sequence of calls every group count is its own retains plus its contexts', every protect count its context's retains, and the live groups are the retained ones |
| `RefCounts.DeadForever` | Source/JavaScriptCore/API/JSContextRef.cpp:62-66 | once a group has died no permitted call brings it back |

## Left out

- Sessions are values and functions on them, with one record for each lambda, so sharing and lifetime of the C++ closures and of the `Session` object are not captured; only `SessionHost` with its table is a class.
- What a command reads from a successful answer beyond windows, frames, dialogs and errors (element text, cookies, rectangles, screenshots) is passed on as it is.
- New session, connecting to the browser, timeouts and capabilities of a running session are not part of `Session`.
- SessionWindows.RunSolo: states that the frame belongs to the window for one command at a time; an overlapping switch of windows may come between asking for a frame and getting it.
- SessionPrompts.RunUnobstructed: assumes a browser that tells the truth about dialogs, and for the later messages of a command that none opens between them.
- SessionClose.DeleteEnds: assumes a browser that lists its windows and removes exactly the one it was told to close.
- The text of JSON messages, and the number a 32-bit conversion gives for a double out of range; a timeout out of range is refused either way.
- The upper-case and put spellings of request methods, and copying path bindings into the request body.
- The hooks of a port (validating, matching and comparing versions) are arbitrary functions; matching is stated for validated capabilities, which is all it is called with.
- Which of several mismatching fields is reported depends on the order of the hash table and is left open.
- Parsing of the keyword file, printing of text, and the Python `float` arithmetic of weights, which are reals here; a dictionary is a sequence in insertion order, and the order of equal weights is that of a stable sort.
- KeywordEmit.GeneratedParserIsCorrect: requires labels for which comparison macros exist (`KeywordEmit.CompilableIff`), since the generator prints a call of a missing macro otherwise.
- The 64-bit packing macro for big-endian machines is never expanded and has no model.
- Worker threads run no script here; what they send and when they leave is arbitrary. Spurious wake-ups are steps; fairness is not assumed and liveness not claimed.
- Windows path separators and drive roots; directories are absolute with root "/".
- Property callbacks, static values, deletion and access by index on callback objects follow other rules; prototypes with setters or read-only properties are not modelled.
- Garbage collection of unprotected contexts, locking and thread safety of the counts, and `JSStringRef` retains.
