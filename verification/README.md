# A verified model of the Pokemon Showdown command-line client

The client has two threads. The network thread runs Asio handlers: it reads frames, parses them and pushes
the messages into a lock-free ring; it also writes what the main thread sends. The main thread pops
messages, folds them into a battle state, and drives a stack of UI layers through a bounded event queue.
This project models that machinery in Dafny and proves what holds in every run.

| file | models |
|---|---|
| `SpscRing.dfy` | `SPSCQueue` as two interleaved threads, one atomic load or store per step, with stale acquire loads and a data-race check on the slots |
| `SpscQueue.dfy` | the same object when one thread makes every call, over a real array |
| `Parser.dfy`, `RoundTrip.dfy` | cutting frames into messages and identifiers into parts; a printer, and exactly what a trip through the format loses |
| `WriteStrand.dfy` | the outbound queue: posted handlers, one asynchronous write, completions, errors, stop |
| `Inbound.dfy` | the read loop and `PsClient::poll` around the ring |
| `BattleState.dfy`, `BattleObject.dfy` | the battle fold, and the object whose loops implement it |
| `BattleRuns.dfy`, `BattleMap.dfy`, `BattleReorder.dfy`, `BattleNames.dfy` | its run invariants, its refinement of a map, and early switches, with names apart and with names shared |
| `LayerStack.dfy` | the vector of layers and overlays with its offset |
| `PsClient.dfy` | the login handshake over two 32-byte buffers |
| `EventLoop.dfy`, `Draining.dfy`, `Commands.dfy`, `Network.dfy` | events, handlers and dispatch; the reentrant drain; what typed lines come to; who hears a message |
| `AppRuns.dfy`, `Logins.dfy`, `Outbound.dfy` | runs of the main loop, the session inside them, and what they send |
| `App.dfy` | the `PsApp` object |
| `EndToEnd.dfy` | the whole client: network thread, ring, write queue and main thread in every interleaving |
| `ClientRuns.dfy`, `PlainSession.dfy` | building runs of it, and one ordinary session |

How to read the model:

- A ring index is the list of all stores made to it. A thread's acquire load of the other thread's index may
  return any store no older than the last one it saw; its load of its own index returns the newest. Each
  store carries how many slot accesses it releases, so that two unordered accesses to a slot are a race.
- What a moved-from slot holds is arbitrary (`left` in `TakeSlot`, an arbitrary value in `Pop`).
- Fields the code never initialises are `None` until first written. `std::stoi` throwing shows as
  `ok == false` with the state as it then is, and so does a damage or heal message without a condition for
  a known Pokemon, where the code indexes past its arguments.
- A decoded request, the first key of an `updatesearch` text and the answer of `request_assertion` are
  function or value parameters.
- Where the code forms an iterator outside its vector of layers, or a message handler does not return,
  `defined` turns false and the main loop goes no further. `AppRuns.RunDefined` says exactly when that is.
- Classes carry the fields the source updates in place. Their methods are proved equal to the steps of the
  specification functions the lemmas are about.

Where code and comments disagree the code is followed. `pop_overlay` decrements the layer offset
(src/core/layerstack.cpp:50), `pop_layer` compares a failed search with `end()` (src/core/layerstack.cpp:36),
and a battle is pushed as an overlay (src/app/psapp.cpp:245) but popped as a layer (src/app/psapp.h:265), so
the partition the class intends does not hold in general; `LayerStack.BoundaryExact` says exactly when it
does. In the application no layer pop after the second detachment is defined, and only such a one is not
(`Draining.DrainResult`); `PlainSession.MenuLost` is an ordinary session, one login and one battle, that
loses its menu this way. A choice such as `1` reads the slot off the start of the line instead of its first
word (src/app/psapp.h:229,232), so a line that starts with a blank sends no valid order
(`Commands.OrderSent`). At a login prompt the quit key is a name or a password (`Draining.QuitAtTop`). The
comment at src/app/psapp.h:194 says the application pops the battle; the battle submits the pop itself.

## Model

| member | source | states |
|---|---|---|
| `SpscRing.StepInv` | src/core/thread/queue.h:29-56 | every step of either thread, with any stale load allowed to it, keeps the inductive invariant: indices are the push and pop counts modulo the capacity, the live window holds what was pushed, each thread's locals are what it may rely on, no race so far |
| `SpscRing.Window` | src/core/thread/queue.h:34 | two counters less than a lap apart name the same slot exactly when they are equal |
| `SpscRing.FullTest` | src/core/thread/queue.h:33-34 | the full test on residues is exact for the head value that was loaded, over every capacity and wrap-around |
| `SpscRing.WrapIsRemainder` | src/core/thread/queue.h:37 | the model's wrap is the remainder by the capacity |
| `SpscRing.Reachable` | src/core/thread/queue.h:25-56 | every interleaving from a fresh queue satisfies the invariant |
| `SpscRing.RefinesAtomicFifo` | src/core/thread/queue.h:29-56 | for every interleaving and choice of stale loads, the successful pushes (at the tail store) and pops (at the head store) are a legal history of an atomic FIFO of size capacity - 1, which then holds what the slots hold |
| `SpscRing.PoppedIsPrefixOfPushed` | src/core/thread/queue.h:29-56 | values popped are a prefix of values pushed, fewer than capacity are in flight, and no two accesses to a slot are unordered |
| `SpscRing.SlotExclusive` | src/core/thread/queue.h:34-51 | producer and consumer are never about to touch the same slot; the slot about to be taken holds the oldest unpopped value; slot k mod capacity holds push number k for the whole live window |
| `SpscRing.PushFailsWhenFull` | src/core/thread/queue.h:30-34 | a push gives up exactly when capacity - 1 values were unpopped as of the head it loaded; if that was the newest head, exactly when the queue was full at that load; a stale head only overstates occupancy |
| `SpscRing.PopFailsWhenEmpty` | src/core/thread/queue.h:44-48 | a pop gives up exactly when the queue was empty as of the tail it loaded; a stale tail only understates occupancy |
| `SpscRing.StaleHeadLooksFull` | src/core/thread/queue.h:30-34 | the newest-value condition is needed: with two slots there is a reachable state where a push gives up on an empty queue |
| `SpscQueue.SPSCQueue.constructor` | src/core/thread/queue.h:25 | a new queue holds nothing |
| `SpscQueue.SPSCQueue.Push` | src/core/thread/queue.h:29-41 | succeeds exactly below capacity - 1 elements, then appends the value; otherwise nothing changes |
| `SpscQueue.SPSCQueue.Pop` | src/core/thread/queue.h:43-56 | succeeds exactly on a nonempty queue and takes the oldest element; otherwise nothing changes |
| `Parser.SplitTokens` | src/protocol/parser.cpp:6-32 | the loop yields the pieces between delimiters, each without one trailing carriage return |
| `Parser.JoinPieces` | src/protocol/parser.cpp:11-31 | cutting loses nothing: joining the pieces gives the text back, and no piece holds the delimiter |
| `Parser.PiecesJoin` | src/protocol/parser.cpp:11-31 | delimiter-free pieces, joined and cut, come back |
| `Parser.SplitCompositional` | src/protocol/parser.cpp:11-31 | splitting `a`, a delimiter, `b` is splitting `a` followed by splitting `b`, for all texts |
| `Parser.ParseMessage` | src/protocol/parser.cpp:34-69 | the loop with its running room and skipped lines computes the messages of the frame, the empty frame included |
| `Parser.MessagesCompositional` | src/protocol/parser.cpp:39-66 | two frames parsed as one give the messages of both if and only if the first leaves no room open or the second names a room before its first message |
| `RoundTrip.PrintThenParse` | src/protocol/parser.cpp:34-69 | for every printable list, what comes back is each message with one carriage return lost per room and field, and a second one at the last field |
| `RoundTrip.RoundTripExact` | src/protocol/parser.cpp:34-69 | the trip is the identity if and only if no field or room ends in a carriage return |
| `RoundTrip.ParsedArePrintable` | src/protocol/parser.cpp:34-69 | everything the parser produces can be printed |
| `RoundTrip.Reparse` | src/protocol/parser.cpp:34-69 | parsing, printing and parsing again changes nothing if and only if no parsed field or room still ends in a carriage return |
| `RoundTrip.ParsedIdentClean` | src/protocol/parser.cpp:71-107 | whatever the text, the identifier returned is empty or has a two-character colon-free side, a slot that is not a colon and a name not starting with a space |
| `RoundTrip.IdentRoundTrip` | src/protocol/parser.cpp:71-107 | an identifier survives printing and parsing if and only if it is of that shape or empty, names with colons included |
| `WriteStrand.WsClient.Send` | src/net/wsclient.cpp:37-50 | posts the newline-terminated text and keeps the invariant with it added to what was sent |
| `WriteStrand.WsClient.RunPostedHandler` | src/net/wsclient.cpp:41-49 | moves the oldest posted text to the queue and starts a write only if none was in progress |
| `WriteStrand.WsClient.StartWrite` | src/net/wsclient.cpp:52-55 | the buffer put out is the front of the queue, which stays there |
| `WriteStrand.WsClient.WriteCompleted` | src/net/wsclient.cpp:56-65 | success pops the written front and goes on; an error leaves the queue as it is; the invariant holds after both |
| `WriteStrand.Conservation` | src/net/wsclient.cpp:37-68 | in every run completed writes, queue and unrun handlers, end to end, are the texts sent, in order, each newline-terminated; at most one write is outstanding, of the queue's front |
| `WriteStrand.WritingWhileQueued` | src/net/wsclient.cpp:43-62 | until a write fails, a write is outstanding if and only if the queue is nonempty |
| `WriteStrand.AfterWriteError` | src/net/wsclient.cpp:56-65 | after one write error, in every continuation nothing more is written, no write starts and the front is never popped |
| `WriteStrand.EverythingIsWritten` | src/net/wsclient.cpp:41-62 | without error or stop the handlers take exactly the measure's number of steps, one can run until then, and everything has been written if and only if they have taken them |
| `Inbound.HandleFrame` | src/net/wsclient.h:41-52 | with any number of pops before each push: a message of the frame goes in exactly when there is room at its push, and what was popped and what is queued are what was queued before and the messages that went in, in order |
| `Inbound.StepInv` | src/net/wsclient.h:38-61 | each step of either thread keeps the ring's invariant and the account of every message: arrived is decided plus waiting, decided in is pushed, popped is delivered |
| `Inbound.Delivery` | src/protocol/psclient.cpp:63-79 | in every interleaving what poll delivers is a prefix of the messages whose push succeeded, and of all messages received if no push failed |
| `Inbound.NothingUndecided` | src/net/wsclient.h:38-61 | whenever the read loop is not pushing, the messages pushed are exactly those delivered followed by those in the ring |
| `Inbound.DroppedOnlyWhenFull` | src/protocol/psclient.h:78 | a message is dropped only with 255 unpopped as of the head its push loaded, and with 255 really queued if that head was the newest |
| `BattleObject.BattleTracker.ActivePokemon` | src/protocol/battlestate.cpp:11-18 | returns the first active Pokemon of yours, or the first one exactly when none is active |
| `BattleObject.BattleTracker.FindPokemon` | src/protocol/battlestate.cpp:24-32 | finds the first of that name in the team the side routes to, or none |
| `BattleObject.BattleTracker.ApplyRequest` | src/protocol/battlestate.cpp:48-109 | on the first request sides, your team and the cleaned opponent team; on every one force-switch and moves; a throwing condition leaves the prefix built so far |
| `BattleObject.BattleTracker.EraseOwn` | src/protocol/battlestate.cpp:57-67 | keeps exactly the opponent entries whose identifier is of another side, in order |
| `BattleObject.BattleTracker.TakeYourTeam` | src/protocol/battlestate.cpp:70-94 | the team a request lists, up to the first condition that throws |
| `BattleObject.BattleTracker.StoreHp` | src/protocol/battlestate.cpp:117-122 | current then maximum hit points around the slash; if the second number throws the first is already stored |
| `BattleObject.BattleTracker.ApplyHp` | src/protocol/battlestate.cpp:111-123 | changes hit points of the named Pokemon and nothing else |
| `BattleObject.BattleTracker.ApplyFaint` | src/protocol/battlestate.cpp:125-132 | fainted, inactive, no hit points; unknown names change nothing |
| `BattleObject.BattleTracker.Enter` | src/protocol/battlestate.cpp:134-153 | after the first half of a switch the team is rested and the named Pokemon is in it, new at the end if it was unknown |
| `BattleObject.BattleTracker.ApplySwitch` | src/protocol/battlestate.cpp:134-165 | the whole switch on the routed team, the other team untouched, a throwing condition included |
| `BattleObject.BattleTracker.Apply` | src/protocol/battlestate.cpp:34-46 | the dispatch is the fold's step for every message type |
| `BattleState.UpdateAt` | src/protocol/battlestate.cpp:24-32 | the recursive update of a team is an in-place change of the first entry of that name |
| `BattleState.ChangeKeeps` | src/protocol/battlestate.cpp:111-165 | no message changes a name or identifier, and the active and fainted flags follow the kind of message only |
| `BattleRuns.ApplyInv` | src/protocol/battlestate.cpp:34-165 | one message keeps names distinct, at most one active, none active and fainted, cached names right, whether or not it throws |
| `BattleRuns.ApplySeparated` | src/protocol/battlestate.cpp:48-67 | one message keeps the two teams on their own sides once your side is known |
| `BattleRuns.RunInv` | src/protocol/battlestate.cpp:34-165 | both, in every run from a new battle |
| `BattleRuns.FirstRequestExact` | src/protocol/battlestate.cpp:70-94 | a completed first request leaves a well-formed state if and only if its list has distinct names and at most one active |
| `BattleRuns.SwitchOutcome` | src/protocol/battlestate.cpp:134-156 | for every team: after a switch the named Pokemon is there, the only active one and not fainted, new exactly if its name was unknown, and everyone else only rests |
| `BattleRuns.ConditionReads` | src/protocol/battlestate.cpp:117-122 | a condition made of two decimal numbers that fit in an int, with a slash between and any non-digit text after, sets current and maximum hit points to them and nothing else |
| `BattleMap.RunReady` | src/protocol/battlestate.cpp:34-165 | in every run from a new battle the state is a map keyed by side and name as soon as a request has named your side |
| `BattleMap.ApplyRefines` | src/protocol/battlestate.cpp:111-165 | every later message does to the two vectors exactly what the map operation does to the map |
| `BattleMap.RunRefines` | src/protocol/battlestate.cpp:34-165 | the same over every later run |
| `BattleMap.FindIsLookup` | src/protocol/battlestate.cpp:24-32 | the linear search is map lookup |
| `BattleReorder.Reordering` | src/protocol/battlestate.cpp:52-67 | for every log before the first request in which your side uses no name that another switches in: your team is the request's, and the opponent's equals, in order and in every field, the one of the other order, except that all active flags are gone exactly when the log's last switch is yours |
| `BattleReorder.CleanAfter` | src/protocol/battlestate.cpp:57-67 | cleaning the mixed team commutes with each message |
| `BattleNames.IdentifiersExact` | src/protocol/battlestate.cpp:134-156 | for every log before the first request, names shared or not: the opponent's identifiers are the same in both orders if and only if no name first switched in by your side is later switched in by another side |
| `BattleNames.SharedNameIsLost` | src/protocol/battlestate.cpp:147-153 | an instance: if both leads have one name, the early log loses the opponent's Pokemon |
| `BattleNames.SharedNameExample` | src/protocol/battlestate.cpp:134-165 | an example: a log of two Mews |
| `LayerStack.Layers.PushLayer` | src/core/layerstack.cpp:24-27 | inserts at the offset, advances it modulo 2^32, attaches |
| `LayerStack.Layers.PushOverlay` | src/core/layerstack.cpp:29-32 | appends and attaches, offset unchanged |
| `LayerStack.Layers.PopLayer` | src/core/layerstack.cpp:34-42 | erases and detaches what the search before the offset ends at, unless that is the end of the vector |
| `LayerStack.Layers.PopOverlay` | src/core/layerstack.cpp:44-52 | erases and detaches the first hit from the offset on, and moves the offset too |
| `LayerStack.Layers.Destruct` | src/core/layerstack.cpp:12-22 | the backward loop detaches everything left, last first |
| `LayerStack.Boundary` | src/core/layerstack.cpp:24-52 | in every run of fewer than 2^32 - 1 pushes the vector is layers then overlays, and the first overlay is at the offset plus the overlays ever detached, until the offset wraps; then it lies past the end, and an overlay has been detached |
| `LayerStack.OffsetCounts` | src/core/layerstack.cpp:24-52 | in every run, wraps included, the offset is the layer pushes minus all effective pops, modulo 2^32 |
| `LayerStack.BoundaryExact` | src/core/layerstack.cpp:24-52 | in every run of fewer than 2^32 - 1 pushes the offset marks the boundary if and only if no overlay has ever been detached |
| `LayerStack.PopLayerTakes` | src/core/layerstack.cpp:34-42 | pop_layer removes its argument if and only if that is before or at the offset, and something else if and only if it is not there and an entry lies at the offset; pop_overlay never removes anything else |
| `LayerStack.OverlayPopsItself` | src/core/layerstack.cpp:44-52 | on every stack whose offset lies within it, a new overlay that pops itself leaves the vector as it was and the offset one lower |
| `LayerStack.OverlayPoppedAsLayer` | src/core/layerstack.cpp:34-42 | on every stack whose offset lies within it, a new overlay popped as a layer goes if nothing lay at the offset; otherwise what lay there goes, and the overlay stays |
| `LayerStack.SecondLoginWraps` | src/core/layerstack.cpp:44-52 | from every stack of fewer than 2^32 - 1 entries with the offset at 1, two new overlays that pop themselves in turn make it wrap, after which every pop and layer push is undefined |
| `LayerStack.SecondBattleTakesMenu` | src/core/layerstack.cpp:34-42 | from every stack of one layer with the offset at 1, of two new overlays popped as layers in turn the second takes the layer and leaves itself |
| `LayerStack.Lifecycle` | src/core/layerstack.cpp:12-52 | in every run, wraps included, what was attached is what was pushed and is what was detached plus what is left; after the destructor each has been detached as often as pushed |
| `LayerStack.OnceEach` | src/core/layerstack.cpp:12-52 | in every run a layer pushed once is attached exactly once and detached exactly once |
| `LayerStack.SurvivorsKeepOrder` | src/core/layerstack.cpp:24-52 | two entries that survive any further run keep their relative order |
| `PsClient.Session.Store` | src/protocol/psclient.h:28-58 | a blank text is refused and changes nothing; otherwise the C string then read is the first 31 characters up to a NUL, whatever the buffer held before |
| `PsClient.Session.SetUsername` | src/protocol/psclient.h:28-42 | the same of the username buffer, the password untouched |
| `PsClient.Session.SetPassword` | src/protocol/psclient.h:44-58 | the same of the password buffer, the username untouched |
| `PsClient.Session.TryLogin` | src/protocol/psclient.cpp:101-125 | succeeds exactly with a challenge, both credentials and a token; then sends once and clears all three, else changes nothing |
| `PsClient.Session.Poll` | src/protocol/psclient.cpp:63-79 | hands on the oldest message unchanged after noting a challenge or a named user |
| `PsClient.ChallengesSpent` | src/protocol/psclient.cpp:94-125 | in every run the texts sent plus the challenge held never exceed the challenges accepted |
| `PsClient.ChallengeUse` | src/protocol/psclient.cpp:94-125 | in every run a successful login sends exactly the last accepted username, cut to 31 characters, uses up a challenge, and cannot be repeated on it |
| `PsClient.SpentChallenge` | src/protocol/psclient.cpp:94-125 | without a newly accepted challenge nothing more is sent |
| `PsClient.ChallengeText` | src/protocol/psclient.cpp:94-99 | for a challstr line anywhere in a frame, the stored challenge equals the server's text if and only if that has exactly one bar and no carriage return before it or at the end |
| `EventLoop.DispatchOnce` | src/app/psapp.cpp:264-270 | dispatching a queued event keeps the stack and every battle, and submits at most one event, only for a command, never a command or layer push |
| `EventLoop.CommandsGoToTheTop` | src/app/psapp.cpp:264-270 | a command reaches the topmost layer and no other |
| `EventLoop.HandleDefined` | src/app/psapp.cpp:199-257 | handling an event leaves the offset the one layer push less all detachments modulo 2^32, and leaves the vector if and only if it is a layer pop while that lies past the end |
| `EventLoop.OffsetsTaken` | src/core/layerstack.cpp:24-52 | with fewer than 2^32 overlays made, the offset is 1, 0 and 2^32 - 1 after no, one and two detachments, a third never happens, and only after two does the offset lie past the end |
| `Draining.ProcessStep` | src/app/psapp.cpp:196-260 | one turn keeps the invariant, loses no submission, adds less weight (two per command, one per other event) than the event it consumed, and goes undefined if and only if it is a layer pop past the end |
| `Draining.DrainResult` | src/app/psapp.cpp:193-261 | the drain ends within the queue's weight and loses no submission; it goes undefined if and only if it comes to a layer pop after two detachments; otherwise, unless it quit, it leaves the queue empty, every queued event having been processed in order |
| `Draining.QuitDropsNext` | src/app/psapp.cpp:196-207 | on a quit, whatever else is queued, the stack stays, the first event behind the quit is dropped and the rest stays queued, the topmost layer's submission last |
| `Draining.QuitAtTop` | src/app/psapp.h:93-97 | that submission is the menu's own pop at the menu, nothing at a battle, and a login's pop or nothing at a prompt, which takes the quit for a name or a password |
| `Commands.TokensAcceptable` | src/util/util.cpp:9-20 | the words of a line are nonempty, blank-free and acceptable to the client, so the prompt's refusal of a name is never reached |
| `Commands.LoginFlow` | src/app/psapp.h:138-177 | two one-word lines at a new prompt log in and pop it if and only if a challenge is held, a token is answered and neither word starts with a NUL; then the first word cut to 31 characters goes out with the token, and credentials and challenge are gone; otherwise the prompt starts over with the challenge kept |
| `Commands.BattleAnswers` | src/app/psapp.h:217-251 | a battle answers a line with at most one text, in its room, exactly for the lines it understands; it submits nothing, keeps the line to itself, and changes no more than its timer flag |
| `Commands.OrderSent` | src/app/psapp.h:227-248 | for every line understood, the text is the order meant if and only if the line does not start with a blank; if it does, the text is no valid order at all |
| `Commands.TimerAlternates` | src/app/psapp.h:236-243 | over any lines, the timer texts switch on, off, on and so on, one for each toggle, and the flag says which was last |
| `Network.OneListener` | src/app/psapp.cpp:264-270 | a message is handled by the topmost layer that is not a login prompt and by nothing else |
| `Network.Received` | src/app/psapp.cpp:185-191 | the session sees the message, the listener takes it, every other layer stays, and the application goes on unless the listener's handler does not return |
| `AppRuns.RunTurns` | src/app/psapp.cpp:45-55 | in every run of the main loop the menu is nowhere but at the bottom, every stacked layer exists, a layer push is queued only first of all, and from then on the offset is the count above |
| `AppRuns.DrainGrown` | src/app/psapp.cpp:193-261 | a drain changes the state of no battle, and a battle it makes is new |
| `AppRuns.BattlesHear` | src/app/psapp.cpp:185-191 | in every run, with whatever drains, typed lines and stack changes in between, each battle is the fold of exactly the messages polled while it was the listener |
| `AppRuns.RunDefined` | src/app/psapp.cpp:45-55 | a run with fewer than 2^32 overlays has gone on if and only if no turn met a handler that does not return or a layer pop after two detachments |
| `Logins.SessionRun` | src/protocol/psclient.cpp:63-125 | every run of the application is a run of the login handshake that receives exactly the messages polled |
| `Logins.LoginsNeedChallenges` | src/protocol/psclient.cpp:94-125 | whatever is typed and however the loop turns, no more login texts go out than challenges were polled |
| `Outbound.TurnSays` | src/app/psapp.cpp:45-55 | a turn of the main loop only adds texts to those sent, and none is empty |
| `ClientRuns.OneMessageIn` | src/net/wsclient.h:38-61 | from every quiet state of the client there is a run that brings a frame of one message through the ring to the layers |
| `PlainSession.MenuLost` | src/app/psapp.h:265 | for every challenge, name, password and end of battle there is a run of the client, one line a round, in which after one login, one battle and its end the stack holds the battle and not the menu, with the offset at 2^32 - 1; one more end heard, and the run has no defined next step |
| `EndToEnd.MainRuns` | src/app/psapp.cpp:45-55 | in every interleaving the main thread's side is a run of the main loop's turns, and the messages of its updates, end to end, are what the ring delivered |
| `EndToEnd.InboundSide` | src/net/wsclient.h:38-61 | in every interleaving the inbound side is a run of the inbound machine |
| `EndToEnd.BattlesFollowServer` | src/app/psapp.cpp:45-55 | for every interleaving of both threads, stale loads, drains and typed lines: what was polled is a prefix of the messages received whose push succeeded, each battle ever made is the fold of exactly those polled while it listened, and login texts are no more than challenges polled |
| `EndToEnd.OutboundSide` | src/net/wsclient.cpp:37-68 | in every interleaving the write queue runs on the texts the application sends, none of them empty |
| `EndToEnd.TextsGoOut` | src/net/wsclient.cpp:37-68 | in every interleaving, what is written, queued, posted and about to be posted, end to end, are all texts the layers and the session have sent, in order, newline-terminated, with at most one write outstanding, of the queue's front |
| `EndToEnd.ArrivedIsSent` | src/protocol/parser.cpp:34-69 | frames that print carriage-return-free messages arrive as those messages |
| `EndToEnd.PolledIsPrinted` | src/protocol/parser.cpp:34-69 | if frames print such batches and no push failed, what the main thread polled in any run is a prefix of what was printed |
| `App.PsApp.constructor` | src/app/psapp.cpp:17-43 | the application starts in the invariant with the menu's push queued |
| `App.PsApp.Submit` | src/app/psapp.cpp:25-27 | a submission goes in at the end, or is lost if 63 events are queued |
| `App.PsApp.LoginCommand` | src/app/psapp.h:138-177 | the prompt's two stages over the real buffers; the pop is submitted exactly on success |
| `App.PsApp.OnCommand` | src/app/psapp.h:81-99 | each layer's reaction, and whether the event stops there |
| `App.PsApp.PushToLayers` | src/app/psapp.cpp:264-270 | top down, stopping at the first layer that handles the event |
| `App.PsApp.ChangeStack` | src/app/psapp.cpp:211-227 | the stack operation, or undefined where the iterator would leave the vector |
| `App.PsApp.HandleEvent` | src/app/psapp.cpp:199-257 | the switch of the drain loop, new overlays with fresh identities included |
| `App.PsApp.ProcessEvent` | src/app/psapp.cpp:196-260 | the switch, then the dispatch, and whether to leave |
| `App.PsApp.Poll` | src/app/psapp.cpp:193-261 | the loop terminates although handlers push into the queue it drains, is the drain the lemmas are about, and keeps the invariant |
| `App.PsApp.PushMessage` | src/app/psapp.cpp:264-270 | the same dispatch for a message |
| `App.PsApp.PollOne` | src/app/psapp.cpp:187-190 | one message off the inbound queue, through the session, down the layers |
| `App.PsApp.ProcessNetwork` | src/app/psapp.cpp:185-191 | with messages arriving before any poll: handles in order what was queued and what arrived and found room, to the last message or to the one whose handler does not return |
| `App.PsApp.Type` | src/app/psapp.cpp:31-38 | a typed line is queued as a command |
| `App.PsApp.Round` | src/app/psapp.cpp:48-52 | one round of the main loop, messages arriving meanwhile and at most one line typed, is a run of the turns above and keeps the invariant, so rounds can follow each other for ever |

## Left out

- TLS, DNS, WebSocket handshake and `close` (src/net/connection.cpp, src/net/sslcontext.cpp): library calls; a frame arriving, a write completing and a stop are the environment's steps.
- The HTTP exchange of `request_assertion` (src/net/auth.cpp): its answer is an argument, any string, empty meaning failure.
- JSON text parsing: a decoded request and the first game key are what decoder functions return; texts the library would refuse with an exception are not modelled.
- Rendering, logging and line editing; typed lines are the texts handed to the input callback.
- Wrap-around of the 64-bit ring indices: they stay below the capacity.
- Memory reuse: a popped layer's identity is never given out again, so a new layer never has the address of a deleted one.
- Memory orders other than the four the ring uses, and reordering beyond what they allow: loads may be stale, slot accesses are checked for races instead of being given values when they race.
- `JsonLoader`, the format registry (its one identifier is a constant), key events, `m_network_queue`, `m_outbound`, `m_searching`, `m_in_battle`, `Pokemon.status` and the opponent's name: unused or trivial.
- `is_force_switch` before the first request reads an uninitialised flag; the model takes the move text then.
- BattleObject.BattleTracker.Apply: asks that the arguments the code indexes whatever its state are there, as reading past them is undefined.
- BattleObject.BattleTracker.ActivePokemon: asks for a nonempty team, as the code indexes its first entry.
- WriteStrand.WsClient.Send: asks for a nonempty text, as the code looks at its last character.
- PsClient.ChallengeText: asks for a text with a bar in it, as without one the code indexes an argument that is not there.
- EndToEnd.BattlesFollowServer: a run does not go past a message with fewer arguments than the session or a battle indexes whatever their state.
- LayerStack.SurvivorsKeepOrder: is about runs that push no identity twice, as pointers pushed twice would be deleted twice.
- Draining.DrainResult: is about applications that have made fewer than 2^32 overlays; ProcessStep is about all.
- LayerStack.Boundary: is about runs of fewer than 2^32 - 1 pushes; OffsetCounts is about all.
- BattleReorder.Reordering: keeps the names apart, as under a shared name one side's hit points and faints can reach the other's Pokemon; IdentifiersExact is about all logs.
- A text's send call is cut into the turn that comes to it and the post; the turn's other effects are taken to come first, which no thread can tell.
