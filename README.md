# Card duel room: a Dafny model of its decision logic

This project models the deterministic core of a two-player online card-game
table. Players meet in a room, see each other's video, and share the game
state. The model covers:

- **Peer session negotiation** (`WebRTC`, from `useWebRTC`).
  - Each client announces itself with `ready`. The client with the smaller id
    (JavaScript string `<`) creates the `game-events` data channel and sends
    the offer. The other client re-announces and then answers.
  - Candidates that arrive before a remote description are queued. They are
    applied oldest first once the first offer or answer is set.
  - A second offer or answer is ignored.
  - A declared card travels over the data channel only when the channel is
    open. A received message is applied only when it is a `card-declared`
    frame.
  - `Negotiator` is a class. Each signaling handler is one method on it, and
    `Valid()` is its invariant. `Meet`, `Announce`, `Exchange` and `Handshake`
    run two clients through a full session, in an order the program can run.
- **Layout state** (`Layout`, from `LayoutContext`). This is the layout mode,
  the spotlight target, the sidebar collapse, and the current view and room.
- **Sidebar controls** (`Sidebar`).
  - The per-game phase table.
  - The phase-advance rule: next phase, pass the turn at the last phase, or
    reset to the first phase when the current one is unknown.
  - The pass-turn button.
  - The spotlight and layout buttons.
- **Slot classes** (`GameArea`). These are the two video slots' CSS classes
  and the click that spotlights a player.
- **Life-point counter** (`PlayerOverlay`).
  - Add, and subtract clamped at zero.
  - Halve, rounding up.
  - The step input accepts only digits, and blur turns an empty input
    into `0`.
- **Lobby** (`Lobby`).
  - Join by code, with a mock room id when the code is empty.
  - A click on a room is refused when the room is full. A private room opens
    the password prompt, and a public room is joined at once.
  - The password check.
  - The row a created room inserts, and the host-name fallback chain.
- **Card scanner** (`CardScanner`). `lastMatch` removes repeats: the cards
  reported to the caller are the matched cards with consecutive repeats
  removed.
- **Card server** (`CardServer`, from `python_server/main.py`).
  - Nearest-hash identification by Hamming distance, with a starting minimum
    of 100 and a match threshold of 15.
  - Case-insensitive search over English and Italian names, stopping at
    20 hits.
- **Card database builder** (`Downloader`, from `python_server/downloader.py`).
  This is the merge of the English and Italian card lists into the id-keyed
  card map, and the disabled image hash.
- **Search proxy** (`SearchRoute`, from `src/app/api/search/route.ts`).
  - The game type selects the upstream endpoint.
  - An upstream error status is passed through.
  - A thrown error is answered per branch.

The source changes state in place in the hook, the components and both
Python loops. The model does the same with classes that have fields,
`modifies` clauses and loops. Each method is proved against a specification
function or an explicit new state. The pure parts are functions with lemmas:
the phase table and its advance rule, the slot class, the route decision,
and the search and merge specifications.

Three mechanisms one might expect are absent from the code, so none of
them is modelled:

- There is no signaling-channel fallback for game commands: `sendCard`
  only logs when the data channel is not open.
- There is no pass-turn timestamp, so stale pass messages are not rejected.
- There is no guard against concurrent turn switches.

The sidebar reads `switchTurn`, `currentTurn`, `currentPhase`,
`setCurrentPhase` and `gameType` from the layout context, and takes
`sendPhase` and `sendPassTurn` as props. None of these is defined in the
files of this repository: the layout context's type declares none of them,
and the game room renders the sidebar with no props. The model takes
`currentTurn`, `currentPhase` and `gameType` as inputs, and records the
calls of `switchTurn`, `sendPhase` and `sendPassTurn` as effects.

Two smaller points about the code:

- The `ice-candidate` handler tests `pc.remoteDescription`, while the offer
  and answer handlers test `pc.currentRemoteDescription`. The two coincide
  when each handler runs atomically, so both are one field here.
- An offerer that gets a second `ready` before any answer creates another
  channel and sends another offer. The model keeps this behaviour, and its
  invariant still ties each created channel to exactly one offer in the
  outbox.

## Model

| member | source | states |
|---|---|---|
| WebRTC.LessAsymmetric | src/hooks/useWebRTC.ts:121-140 | the JavaScript string order `<` never holds both ways |
| WebRTC.LessTotal | src/hooks/useWebRTC.ts:121-140 | of two different ids, one is smaller than the other |
| WebRTC.LessTransitive | src/hooks/useWebRTC.ts:121-140 | the string order is transitive |
| WebRTC.Less | src/hooks/useWebRTC.ts:121 | JavaScript string `<`: a proper prefix is smaller than the longer string, and no string is smaller than itself |
| WebRTC.ReadyActionFor | src/hooks/useWebRTC.ts:121-142 | a client becomes the offerer iff it has no remote description and the smaller id; it re-announces iff it has none and the larger id; it does nothing iff a description is set or the ids are equal |
| WebRTC.ExactlyOneOfferer | src/hooks/useWebRTC.ts:121-142 | for two distinct ids, exactly one client takes the offerer branch, and the other re-announces |
| WebRTC.Receive | src/hooks/useWebRTC.ts:71-79 | an unparseable message, or one whose type is not `card-declared`, leaves the latest card unchanged |
| WebRTC.CardFrameRoundTrip | src/hooks/useWebRTC.ts:27-35 | the frame `sendCard` writes is received as exactly that card |
| WebRTC.Negotiator.constructor | src/hooks/useWebRTC.ts:13-24 | a new session has no descriptions, an empty queue and outbox, no channel and no received card, and satisfies the invariant |
| WebRTC.Negotiator.OnSubscribe | src/hooks/useWebRTC.ts:144-148 | `SUBSCRIBED` appends exactly one `ready` with this client's id and username; any other status sends nothing |
| WebRTC.Negotiator.OnLocalCandidate | src/hooks/useWebRTC.ts:57-63 | a gathered candidate is broadcast once; the end-of-candidates event sends nothing |
| WebRTC.Negotiator.OnIceCandidate | src/hooks/useWebRTC.ts:87-91 | with a remote description the candidate is applied and the queue is unchanged; without one it is appended to the queue and nothing is applied |
| WebRTC.Negotiator.DrainQueue | src/hooks/useWebRTC.ts:97 | afterwards the queue is empty and the applied list gains the whole old queue, in order |
| WebRTC.Negotiator.OnOffer | src/hooks/useWebRTC.ts:92-105 | the first offer sets the remote and local descriptions, drains the queue oldest first, and broadcasts exactly one answer carrying the local username; a later offer changes only the remote username |
| WebRTC.Negotiator.OnAnswer | src/hooks/useWebRTC.ts:106-114 | the first answer sets the remote description and drains the queue oldest first; a later answer changes only the remote username |
| WebRTC.Negotiator.OnReady | src/hooks/useWebRTC.ts:115-143 | the offerer branch creates a `game-events` channel and broadcasts one offer; the re-announce branch broadcasts its own `ready` and creates no channel; otherwise nothing changes but the remote username; the invariant ties every channel to one outbox offer |
| WebRTC.Negotiator.OnDataChannel | src/hooks/useWebRTC.ts:66-69 | the answerer stores the incoming channel as its data channel |
| WebRTC.Negotiator.OnChannelState | src/hooks/useWebRTC.ts:126 | a transport state change updates the ready state of the current channel only |
| WebRTC.Negotiator.SendCard | src/hooks/useWebRTC.ts:27-35 | a `card-declared` frame is written iff a channel exists and is open; otherwise nothing is sent on any transport |
| WebRTC.Negotiator.OnDataMessage | src/hooks/useWebRTC.ts:127-131 | the latest card becomes the message's data iff it parses with type `card-declared` |
| WebRTC.ScenarioIdsOrdered | src/hooks/useWebRTC.ts:121 | the scenario ids satisfy `a1` < `b2` and not the reverse |
| WebRTC.Join | src/hooks/useWebRTC.ts:144-148 | a client that has just subscribed has announced itself once and has no description, channel or queued candidate |
| WebRTC.Meet | src/hooks/useWebRTC.ts:115-148 | `b2` subscribes and announces first, then `a1`; `b2` hears `a1`'s `ready` and re-announces, creating no channel; the outboxes are exactly `[ready a1]` and `[ready b2, ready b2]` |
| WebRTC.Announce | src/hooks/useWebRTC.ts:57-63 | after `Meet`, `a1` hears `b2`'s re-announced `ready`: only the smaller id creates a channel; its outbox is its `ready`, one offer and the candidate it gathered; `b2`'s outbox is unchanged, and each knows the other's username |
| WebRTC.Exchange | src/hooks/useWebRTC.ts:87-114 | `b2` handles the offer and candidate `a1` broadcast, the candidate arriving while the offer handler awaits: it is queued and applied once the offer is set; `b2`'s outbox gains exactly one answer, `a1`'s is unchanged, and both sides end with a remote description |
| WebRTC.Handshake | src/hooks/useWebRTC.ts:27-148 | in a session where `b2` subscribes first, exactly one channel is created, by the offerer; the signals sent are `a1`'s `ready`, offer and candidate and `b2`'s two `ready`s and answer; a card the offerer sends arrives at the answerer as that card |
| Layout.Other | src/components/Sidebar.tsx:29 | toggling the spotlight always picks the other player |
| Layout.LayoutContext.constructor | src/context/LayoutContext.tsx:29-36 | the shared layout starts in grid mode on the opponent, with the sidebar expanded, in the lobby and with no room |
| Sidebar.PhasesFor | src/components/Sidebar.tsx:17-24 | the game's phase list, or the Yugioh list for an unknown game; every list is non-empty, has distinct names and no empty name |
| Sidebar.IndexOf | src/components/Sidebar.tsx:55 | the first position of the phase, or -1 exactly when it is not listed |
| Sidebar.IndexOfDistinct | src/components/Sidebar.tsx:55 | in a list without repeats, each entry is found at its own position |
| Sidebar.AdvanceStep | src/components/Sidebar.tsx:55-69 | the turn passes iff the phase's first position is the last; the phase resets to the first entry iff it is not listed; otherwise the next phase is the entry after the first occurrence of the current one |
| Sidebar.AdvanceFromListed | src/components/Sidebar.tsx:59-65 | from a listed phase that is not last the step is the next entry; from the last entry it is the turn pass |
| Sidebar.AdvanceNThen | src/components/Sidebar.tsx:59-65 | one more click from a reached phase passes the turn or moves to the next phase, as that phase's step says |
| Sidebar.AdvanceOneMore | src/components/Sidebar.tsx:59-60 | from the phase before the k-th, one click reaches the k-th |
| Sidebar.AdvanceVisitsInOrder | src/components/Sidebar.tsx:51-75 | starting from the first phase, k clicks reach the k-th phase, for every k below the list's length |
| Sidebar.AdvancePassesAfterLast | src/components/Sidebar.tsx:61-65 | starting from the first phase, the click after the last phase passes the turn |
| Sidebar.GameTurnLength | src/components/Sidebar.tsx:17-24 | for every game type, the turn passes after exactly as many clicks as the list has phases, starting from the first |
| Sidebar.TurnContext.constructor | src/components/Sidebar.tsx:15 | the phase state starts at the given phase with no recorded effects |
| Sidebar.TurnContext.AdvancePhase | src/components/Sidebar.tsx:51-75 | outside one's own turn nothing changes; at the last phase `switchTurn` and `sendPassTurn` are each called once and the phase is kept; otherwise the new phase is set and exactly that name is passed to `sendPhase` |
| Sidebar.TurnContext.PassTurnButton | src/components/Sidebar.tsx:102-105 | the button calls `switchTurn` and then `sendPassTurn`, whoever's turn it is |
| Sidebar.SpotlightClick | src/components/Sidebar.tsx:26-34 | in fullscreen the target toggles; otherwise the layout becomes fullscreen on the opponent |
| Sidebar.FullscreenButton | src/components/Sidebar.tsx:153-156 | the layout becomes fullscreen and the spotlight ends on the opponent |
| Sidebar.GridButton | src/components/Sidebar.tsx:163 | the layout becomes grid and the spotlight target is kept |
| Sidebar.BoxedButton | src/components/Sidebar.tsx:171-174 | the layout becomes boxed on the opponent |
| Sidebar.CollapseButton | src/components/Sidebar.tsx:181 | the collapse flag flips |
| GameArea.SlotClass | src/components/GameArea.tsx:39-52 | the class is empty iff the layout is grid; `maximized` iff the layout is not grid and the slot is the target; `hidden` iff fullscreen and not the target; `minimized` iff boxed and not the target |
| GameArea.ExactlyOneMaximized | src/components/GameArea.tsx:42-50 | outside grid mode exactly one of the two slots is maximized |
| GameArea.PlayerClick | src/components/GameArea.tsx:31-37 | the clicked player becomes the target, grid becomes fullscreen, other modes are kept, and the clicked slot ends up maximized |
| PlayerOverlay.DecimalPositive | src/components/PlayerOverlay.tsx:17 | a digit string is worth more than zero iff some digit is not `0` |
| PlayerOverlay.StepValue | src/components/PlayerOverlay.tsx:17-29 | `parseInt(stepInput)`, or 0 when it is not a number, is positive, so the + and − buttons act, iff the input holds a non-zero digit; the empty input counts as 0 |
| PlayerOverlay.InitialStep | src/components/PlayerOverlay.tsx:14 | the initial step input `1000` is well formed and worth 1000 |
| PlayerOverlay.LeadingZeroIgnored | src/components/PlayerOverlay.tsx:58-64 | after the blur has turned an empty input into `0`, digits typed after it step by the value they spell: a leading `0` changes nothing |
| PlayerOverlay.ApplyStep | src/components/PlayerOverlay.tsx:32 | adding gives `prev + step`; subtracting gives `max(0, prev - step)` |
| PlayerOverlay.CeilHalf | src/components/PlayerOverlay.tsx:44 | the result is the ceiling of half the value, for every integer |
| PlayerOverlay.HalveBounds | src/components/PlayerOverlay.tsx:44 | halving non-negative life points never raises them, and leaves exactly 0 and 1 unchanged |
| PlayerOverlay.NonNegativeKept | src/components/PlayerOverlay.tsx:32-44 | add, subtract and halve keep non-negative life points non-negative |
| PlayerOverlay.Overlay.constructor | src/components/PlayerOverlay.tsx:12-14 | life points start at 8000 and the step input at `1000` |
| PlayerOverlay.Overlay.SyncCurrentLP | src/components/PlayerOverlay.tsx:22-26 | a defined `currentLP` overwrites the local life points; an undefined one keeps them |
| PlayerOverlay.Overlay.HandleLpChange | src/components/PlayerOverlay.tsx:28-39 | a step of 0 changes and broadcasts nothing; otherwise the new value is the step applied to the old one and is passed to the listener if there is one |
| PlayerOverlay.Overlay.HandleHalveLP | src/components/PlayerOverlay.tsx:41-48 | the life points become the ceiling of half, and that value is passed to the listener |
| PlayerOverlay.Overlay.HandleStepChange | src/components/PlayerOverlay.tsx:50-56 | the input takes the edit iff it is empty or all digits, so the input is always well formed |
| PlayerOverlay.Overlay.HandleStepBlur | src/components/PlayerOverlay.tsx:58-64 | an empty input becomes `0`; any other input is left alone |
| Lobby.RenamingIsBijective | src/components/Lobby.tsx:42-51 | the eight mapped columns are renamed one to one: the row-to-room mapping and its reverse are inverse |
| Lobby.MapRows | src/components/Lobby.tsx:42-51 | one room per fetched row, in order, each mapping back to its row |
| Lobby.IsFull | src/components/Lobby.tsx:106 | a room is full exactly when one more player would exceed its maximum |
| Lobby.BeforeAt | src/components/Lobby.tsx:83 | the text before the first `@`: a prefix with no `@`, followed by `@` unless it is the whole string |
| Lobby.HostName | src/components/Lobby.tsx:83 | the profile username if non-empty, else the non-empty email text before `@`, else `Unknown`; never empty |
| Lobby.NewRoomRow | src/components/Lobby.tsx:84-93 | one player of two; the password is null iff the room is public and `123` otherwise; the other fields and the time limit are copied from the form |
| Lobby.NewRoomNotFull | src/components/Lobby.tsx:89-90 | a newly created room is not full |
| Lobby.Lobby.constructor | src/components/Lobby.tsx:15-27 | the lobby starts with an empty code and password, both dialogs closed and no selection |
| Lobby.Lobby.TypeJoinCode | src/components/Lobby.tsx:239 | the code field holds exactly what was typed |
| Lobby.Lobby.TypePassword | src/components/Lobby.tsx:316 | the password field holds exactly what was typed |
| Lobby.Lobby.OpenCreateModal | src/components/Lobby.tsx:231 | the create dialog opens |
| Lobby.Lobby.CloseCreateModal | src/components/Lobby.tsx:297 | the create dialog closes |
| Lobby.Lobby.CancelPasswordPrompt | src/components/Lobby.tsx:321 | the password prompt closes; the selection and the input are kept |
| Lobby.Lobby.JoinGame | src/components/Lobby.tsx:70-75 | joins the typed code, or `mock-room-id` when the code is empty, and switches to the game view |
| Lobby.Lobby.RoomClick | src/components/Lobby.tsx:105-120 | a full room only raises the alert; a private room is selected, the input is cleared and the prompt opens; a public room is joined by its id |
| Lobby.Lobby.PasswordSubmit | src/components/Lobby.tsx:122-131 | joins the selected room and closes the prompt iff the input equals its stored password; otherwise the alert is shown and the room and view are unchanged |
| Lobby.Lobby.CreateRoom | src/components/Lobby.tsx:77-103 | without a user nothing is inserted and the login alert is shown; otherwise exactly the built row is inserted, and `handleCreateRoom`'s own setter closes the dialog only when the insert succeeds |
| Lobby.Lobby.SubmitCreateForm | src/components/CreateRoomModal.tsx:30-33 | a submit of the create form always ends with the dialog closed, with or without a user and whether or not the insert succeeds; the inserts and alerts are those of `handleCreateRoom` |
| CardScanner.LastMatchIsLatest | src/components/CardScanner.tsx:55-61 | `lastMatch` is the most recent matched card; non-matches and errors never reset it |
| CardScanner.CallbacksCollapseMatches | src/components/CardScanner.tsx:55-61 | over any run of responses, the `onCardFound` calls are the matched cards (`MatchedCard`: a match with a non-empty card) with consecutive repeats removed |
| CardScanner.CollapseNoAdjacentRepeats | src/components/CardScanner.tsx:57 | no card is reported twice in a row, and the last reported card is the last match |
| CardScanner.Scanner.constructor | src/components/CardScanner.tsx:16-17 | the scanner starts stopped, with no last match |
| CardScanner.Scanner.ToggleScan | src/components/CardScanner.tsx:76 | the scan button flips `isScanning` |
| CardScanner.Scanner.OnScanResult | src/components/CardScanner.tsx:55-64 | a new card sets `lastMatch` and is reported exactly once; a repeat, a non-match or an error changes nothing; the state always equals the specification over the responses so far |
| CardScanner.Scanner.Tick | src/components/CardScanner.tsx:28 | a tick handles a response only while scanning a remote stream |
| CardServer.Distance | python_server/main.py:85 | the number of positions where two hashes differ, at most their length |
| CardServer.DistanceSymmetric | python_server/main.py:85 | the distance is symmetric |
| CardServer.DistanceZeroIffEqual | python_server/main.py:85 | the distance is zero iff the hashes are equal |
| CardServer.HashDistanceBelowInitial | python_server/main.py:81 | two 64-bit hashes are closer than the initial minimum of 100, so a non-empty database always yields a best card |
| CardServer.Identify | python_server/main.py:40-93 | an empty database or an unreadable image is reported as an error; otherwise the distance is that of the first entry at the least distance from the frame, with ties going to the earlier entry; it is a match iff the distance is below 15, and only a match names that entry's card |
| CardServer.Lower | python_server/main.py:100 | the lowered text has the same length and no ASCII capital; every other character is kept |
| CardServer.LowerIdempotent | python_server/main.py:100-108 | lowering twice is lowering once, so lowering names against the already lowered query is consistent |
| CardServer.EntryMatches | python_server/main.py:106-113 | only an entry with a non-empty English or Italian name can match |
| CardServer.CaseInsensitiveMatch | python_server/main.py:100-113 | an entry whose English or Italian name holds the query at some position, equal up to ASCII letter case on both sides, matches the lowered query |
| CardServer.DarkMagicianFound | python_server/main.py:100-113 | an entry named `Dark Magician` is found by the query `DARK` |
| CardServer.DisplayNameOfMatch | python_server/main.py:114-116 | the name `DisplayName` shows for a matching entry is never empty, and contains the query unless the English name matched while the Italian one is shown |
| CardServer.HitOf | python_server/main.py:116-125 | a hit carries the entry's id, one of its names, and the CDN image URL of that same id |
| CardServer.Search | python_server/main.py:95-130 | an empty database is reported as an error; otherwise the hits are the first 20 of all matching entries in database order |
| CardServer.AllHitsPrefix | python_server/main.py:126-128 | stopping after the 20th hit yields exactly the first 20 hits of the full scan |
| CardServer.AllHitsSound | python_server/main.py:105-125 | every hit is built from a database entry whose English or Italian name contains the lower-cased query |
| CardServer.AllHitsComplete | python_server/main.py:105-125 | every entry whose English or Italian name contains the lower-cased query contributes its hit, with the CDN image URL built from its id |
| Downloader.NatToString | python_server/downloader.py:65 | Python's `str` of a natural number: non-empty decimal digits |
| Downloader.NatToStringInjective | python_server/downloader.py:65 | distinct natural numbers have distinct decimal strings |
| Downloader.IdKey | python_server/downloader.py:65 | Python's `str` of an id: a leading `-` exactly for a negative id, then decimal digits |
| Downloader.IdKeyInjective | python_server/downloader.py:65 | distinct ids have distinct keys, so a repeated key is a repeated id |
| Downloader.DownloadAndHash | python_server/downloader.py:46-76 | the two loops build exactly the English map merged with the Italian list, and the Italian list is empty when its fetch fails |
| Downloader.EnMapKeys | python_server/downloader.py:64-66 | the keys are exactly `str(id)` of the English cards |
| Downloader.EnMapLastWins | python_server/downloader.py:64-71 | a key holds the record of the last English card with that id: a later duplicate overwrites an earlier one |
| Downloader.EnMapRecords | python_server/downloader.py:66-71 | every record starts with no Italian name and no hash |
| Downloader.MergeItKeys | python_server/downloader.py:73-76 | the Italian loop adds no key: Italian-only ids never enter the map |
| Downloader.MergeItOnlyNames | python_server/downloader.py:73-76 | the Italian loop changes no field of a record except `name_it` |
| Downloader.MergeItUntouched | python_server/downloader.py:75 | a record with no Italian card of its id is left as the English loop built it |
| Downloader.MergeItLastName | python_server/downloader.py:73-76 | a record's `name_it` is the name of the last Italian card with its id |
| Downloader.ItFetchFailed | python_server/downloader.py:52-57 | when the Italian fetch fails the map is the English-only map, with every `name_it` and `hash` empty |
| Downloader.CardMapUnhashed | python_server/downloader.py:64-76 | no record of the finished map holds a hash: the loops store `None` and never call `compute_phash` (`ComputePhash`, which returns None while hashing is disabled) |
| SearchRoute.GameOf | src/app/api/search/route.ts:18-65 | `Pokemon`, `Magic` or `Magic: The Gathering`, and `OnePiece` or `One Piece` select their branches exactly; a missing or empty game type, like any other, selects Yugioh |
| SearchRoute.LocalGamesShareBase | src/app/api/search/route.ts:5-85 | the Pokemon, Magic and One Piece endpoints (`Endpoint`) are their paths on the one local base (`PokemonApiUrl`: the non-empty `PYTHON_API_URL`, else `http://127.0.0.1:8000`); the Yugioh endpoint does not depend on the environment |
| SearchRoute.EndpointsDistinct | src/app/api/search/route.ts:26-85 | whatever the environment holds, the four games reach four different endpoints |
| SearchRoute.Handle | src/app/api/search/route.ts:9-98 | a missing or empty query answers empty results; a non-ok upstream answers its branch's error with the upstream status; an ok JSON body other than `null` is passed through; a `null` body is passed through by Yugioh and makes the log line throw in the other three branches; a thrown error answers empty results with the error in the first three branches and 500 `Internal Proxy Error` for Yugioh |
| SearchRoute.PassthroughOnlyOfOkBodies | src/app/api/search/route.ts:28-92 | a passed-through body always comes with status 200 from an ok upstream: a JSON value, or a `null` only in the Yugioh branch |
| SearchRoute.UpstreamErrorIdentifiesGame | src/app/api/search/route.ts:28-89 | the same failing upstream answers two different games with two different error payloads, so the message names the branch |
| SearchRoute.Origin500 | src/app/api/search/route.ts:94-97 | a 500 comes either from the Yugioh catch-all or from an upstream that itself answered 500 |

## Left out

- Browser transport: the peer connection, SDP creation, ICE gathering, incoming media (`ontrack`, `isConnected`) and cleanup. Descriptions, candidates and channel state changes arrive as opaque values given to the handlers.
- Transport call failures inside the hook's `try`/`catch` blocks (a rejected `setRemoteDescription`, `createOffer` or `addIceCandidate`). Every transport call succeeds in the model.
- Interleaving inside the async handlers: a candidate that arrives during the drain can bypass the queue. Each handler is one atomic step here.
- `clientId` generation from `Math.random`: the id is given to the constructor.
- WebRTC.Negotiator.OnDataMessage: `JSON.parse` and the shape of non-object data are abstracted. A frame is either unparseable or has an optional `type` and `data`.
- Lobby.RenamingIsBijective: the room query selects every column, but the mapping keeps only the eight modelled ones; `settings`, `created_at` (used only for the ordering) and any other column are dropped and are not part of `RoomRow`.
- The realtime room-list subscription, the room fetch, authentication and all Supabase I/O. Fetched rows arrive as values, and an insert's outcome is a boolean parameter.
- The lobby's profile dropdown, auth and account dialogs, and the sidebar's mic, camera, invite, settings and dice buttons. These are presentation or device controls outside the modelled rules.
- PlayerOverlay.StepValue: `parseInt` is modelled with unbounded integers on the inputs the field can hold (empty or digits). Float precision for very long digit strings is not modelled.
- Timers: the 1500 ms scan interval and frame capture. Each tick is one call with the response it receives.
- CardScanner.CollapseNoAdjacentRepeats: "no card twice in a row" assumes the responses are handled one at a time and in order. In the code the interval is re-created whenever `lastMatch` changes, and a request still in flight compares against the `lastMatch` it captured, so two overlapping requests can report the same card twice in a row.
- The perceptual hash itself (the DCT, median and image decoding in `compute_phash` and `compute_phash_direct`) uses floating point. The frame's hash is an Option input, None when it cannot be computed, and the enabled path of `ComputePhash` is a function parameter.
- The monkey patch of `downloader.compute_phash` in `main.py` replaces it with a call of `compute_phash_direct`, which bypasses the `ENABLE_HASHING` flag, so inside the server process even the disabled path would hash. `download_and_hash` never calls `compute_phash`, so neither version reaches the card map (`CardMapUnhashed`); the patched function itself is not modelled.
- Server startup, `/update_db`, pickle and disk I/O, and the card API requests. The English fetch is assumed to succeed; the Italian fetch is an Option.
- The first, effect-free loop of `identify_card`: it computes nothing that is used.
- CardServer.Lower: Python's Unicode `lower()` is modelled on ASCII letters only.
- The database entry read by `identify_card` and `search_card` is its own record type, with a `name` and a 64-bit hash. The model makes no claim that the downloader's records, which store `name_en` and a missing hash, fit that shape.
- SearchRoute.Handle: the query's `encodeURIComponent` encoding and parsing the request URL (a throw there answers 500) are not modelled. The upstream request carries the raw query.
- SearchRoute.Handle: the error message of the TypeError thrown on a `null` body is written with V8's wording; other JavaScript engines word it differently.
- Lobby.Lobby.SubmitCreateForm: the modal calls `onClose` before the insert resolves; the model runs the whole of `handleCreateRoom` first, which ends in the same state.
- The identify proxy route and the rest of the web app (pages, modals, notifications, media context) are not part of this model.
