# VTT campaign server: a verified model

The repository is an event-sourced campaign server for a virtual tabletop. One
world log, one fold and one append path feed a set of character logs, derived
from the world log as it grows; a browser folds the log it is sent a second time.
This project models the parts of it where something can quietly go wrong, in
Dafny, and proves what they promise.

- **The fold** (`Fold`, `FoldInvariants`, `LastWord`, `LastWordActors`,
  `LastWordScenes`, `LastWordOrder`, `Refusals`): what one event does to the
  derived state, what every reachable state keeps, what a state says of the
  log it came from, and which events a log may go on with. `GoHeap`, `EngineState` and `Engine` are the server's Apply and
  Snapshot on Go's heap - maps, pointers, slices with capacity - proved to be that
  fold and to isolate a snapshot.
- **The second fold** (`ClientFold`): the browser's, written its own way, proved to
  stop at the same event or mirror the same state on every stream.
- **The character logs** (`CharacterLogs`, `LeadFrames`, `Anchors`, `LogInvariant`):
  what a log takes from one world event, its openings and resumes, the caused table
  and the anchors on it.
- **The campaign** (`CampaignSpec`, `CampaignInvariant`, `CampaignTheorems`,
  `Stamps`, `Batches`): append and open on values and the theorems over every run;
  `FanOut`, `Campaign` and `CampaignOpen` are the loops and objects that do it,
  proved to compute the same and to write nothing else. A perception decision is an
  arbitrary object returning any frames; each call of a run may use another.
- **The connection** (`Connection`, `LastHeard`, `Wire`): the browser's sockets, cursor, pending
  commands and session, against any server that sends the log it names in order.
- **Adventures** (`Adventure`, `AdventureCompile`): loading a bundle and compiling it
  into a batch the fold accepts whole.
- **Art** (`ArtInstall`, `ArtLibrary`, `Utf8Clip`): the all-or-nothing install, the
  names art may carry, and clipping text for a message.

`Contract` holds the wire types; `GridKey` and `TextOrder` the keys of squares and
Go's order on strings. A function on values is the specification of the method or
class that does the work; the theorems are about the function, and the method's
contract carries them over.

Two facts the code shows and its comments do not: ending a session with an event of
sequence 0 leaves it open (`FoldInvariants.EndCloses`), which no caller does; and a
request id taken while its first command still waits leaves that command without an
answer for good (`Connection.ClashOrphans`), where the comment in `wire.ts` relies on
ids never colliding.

## Model

| member | source | states |
|---|---|---|
| CampaignTheorems.ReopeningMovesNoAnchor | internal/campaign/fanout.go:282-305 | After any run of appends, failed appends and reopenings, for every held log and every world range, the anchor window over the resumes kept live is the window over the transitions Open finds in the world log. |
| CampaignTheorems.LiveEqualsRebuilt | internal/campaign/campaign.go:152-173 | After any run and for any perception, Open of what is stored succeeds and gives the state, the head and, for each stored log, the fold, head, caused table and activity the campaign holds; the decision of each party member is resumed from its log and the state, and no other log has one. |
| CampaignTheorems.RunInv | internal/campaign/campaign.go:226-285 | Every campaign a run reaches keeps the invariant: state is the fold of the world log, head its last sequence, each log exactly what its stored rows fold to, and nothing poisoned. |
| CampaignTheorems.ReopenKeeps | internal/campaign/campaign.go:152-173 | No store an append wrote can fail to reopen, and the reopened campaign keeps the invariant with the same state and head. |
| CampaignTheorems.EveryNarrationAnchored | internal/campaign/fanout.go:177-197 | Whatever frames a party member's decision makes of a world event, each narration among them is anchored legally where it would land and on exactly the entries caused in its range; no opening or resume entry falls inside one. |
| CampaignTheorems.WrittenAnchor | internal/campaign/fanout.go:177-197 | A rewritten narration keeps its words, is 0/0 exactly when its range caused nothing, and otherwise names exactly the entries caused between the later of its start and the last resume not after its end, and its end. |
| CampaignTheorems.TurnAsksLed | internal/campaign/fanout.go:138-151 | The log a decision is asked about is the roused and led one EveryNarrationAnchored speaks of. |
| CampaignTheorems.TurnAsks | internal/campaign/fanout.go:120-169 | The decision a party member's turn asks is the one its log holds, or one that has seen nothing when the log is new or resumes; its answer is what the log holds next, or, when its frames are refused, a decision resumed from the log, counted once as dropped. |
| CampaignTheorems.ActiveWhileMember | internal/campaign/fanout.go:114-136 | After any run a held log has a decision exactly while its actor is there with kind PARTY_MEMBER. |
| CampaignTheorems.FailureLeaves | internal/campaign/campaign.go:249-258 | An append that fails leaves the store, state, head and count as they were, every log its fold, head, caused table and resumes; each active decision is resumed from its log and the state when the store failed, and left alone when the batch was refused before. |
| CampaignTheorems.AppendFailsWhen | internal/campaign/campaign.go:212-258 | In a reachable campaign an append succeeds if and only if the batch is non-empty, has no unknown payload, folds, and the store commits envelopes that came unstamped. |
| CampaignTheorems.FanTakeable | internal/store/store.go:79-100 | Every entry a fan-out makes is one the store takes: unstamped, with an actor id, of a cause within the batch. |
| Stamps.AppendStamps | internal/campaign/campaign.go:226-303 | What an append does to a reachable world log and what it answers, for every batch: stamped with the id drawn for a session's start and else the id of the session the log is then in, whatever the caller set, it becomes the log's continuation exactly when that folds; otherwise the log stays and the first fault is answered. |
| Stamps.EveryEntryStamped | internal/campaign/campaign.go:287-303 | After any run every entry of the world log is an envelope some append was handed, at its place; a session's start carries its drawn id, and any other the id of the session last started in the log before it and not ended since, or none. |
| Stamps.ValidateStamps | internal/campaign/campaign.go:232-248 | Validation stamps every prefix of a batch so, and accepts it exactly when the log with it folds. |
| Stamps.ContinuesOnce | internal/campaign/campaign.go:287-303 | A batch continues a log in exactly one way. |
| CampaignInvariant.AppendKeeps | internal/campaign/campaign.go:226-285 | Every append keeps the invariant; the fan-out divergence and the live divergence never happen, so the campaign is never poisoned; a refusal changes only decisions, a success appends the whole batch. |
| CampaignInvariant.CommitKeeps | internal/campaign/campaign.go:254-269 | A batch that validated fans out, is stored and applies live to the same state validation reached. |
| CampaignInvariant.RestartKeeps | internal/campaign/fanout.go:334-340 | Restarting the decisions keeps the invariant. |
| CampaignInvariant.FanEventsKeep | internal/campaign/fanout.go:96-172 | A fan-out of events that fold never diverges, and after every prefix each actor's log is what the rows stored so far fold to. |
| CampaignInvariant.FanIdsAt | internal/campaign/fanout.go:114-170 | Looping over the sorted ids gives each actor its own turn and touches nobody else's log or entries. |
| CampaignInvariant.FanIdsDrop | internal/campaign/fanout.go:138-170 | A fan-out counts every turn that dropped frames, once. |
| CampaignInvariant.StoreAllAt | internal/store/store.go:139-170 | What a transaction stores of one actor is its own entries, numbered from that log's head, and no other log changes. |
| CampaignInvariant.ValidateFolds | internal/campaign/campaign.go:232-248 | What validation accepts is numbered from head+1 and folds, stamped, to the snapshot it leaves. |
| CampaignInvariant.LiveIsStrict | internal/campaign/campaign.go:261-269 | A live apply of events that fold stops nowhere and ends where the fold does. |
| CampaignInvariant.FoundIn | internal/campaign/fanout.go:297-305 | The transitions found over a world log are increasing sequences of that log. |
| LogInvariant.TurnKeeps | internal/campaign/fanout.go:114-170 | One world event keeps one log: held as stored, its kept resumes standing to the found ones, active exactly while its actor is a party member, whatever frames the decision makes. |
| LogInvariant.MemberTurn | internal/campaign/fanout.go:120-170 | A party member's log is roused, led and decided, and its rows fold to what it holds. |
| LogInvariant.DecideKeeps | internal/campaign/fanout.go:151-169 | Frames that fold land with their rows in the caused table; frames that do not change nothing but the decision. |
| LogInvariant.StoreNumbers | internal/campaign/fanout.go:241-248 | The store numbers a turn's entries exactly as the trial stamped them. |
| LeadFrames.OpeningFolds | internal/campaign/fanout.go:252-273 | What opens a new log always folds, and leaves exactly the world's open session by id and name or none, of its notes those whose visibility is PUBLIC and no other, of its actors the party members and no other, each with its name, module, kind and controllers and no sheet; no scene, token or condition. |
| LeadFrames.ResumeFolds | internal/campaign/fanout.go:310-330 | What resumes a paused log always folds, leaves no token, leaves the log in the world's open session, under its name, or in none, and changes nothing else; a log already there gets no session frame. |
| LeadFrames.SessionTurnFolds | internal/campaign/fanout.go:312-321 | The session frames of a resume fold and bring the log to the world's session under its name; there are none when it is there already. |
| LeadFrames.OpeningInOrder | internal/campaign/fanout.go:252-273 | An opening reads session, party, notes, actors by id and notes by key, and a grant in it names the kind its actor has. |
| LeadFrames.ResumeInOrder | internal/campaign/fanout.go:322-329 | A resume hides its tokens last, in order of id. |
| Anchors.AnchorNamesRange | internal/campaign/fanout.go:182-196 | An anchor is the first and last of exactly the stored entries caused in its range, none of them a lead. |
| Anchors.StartIsLatest | internal/campaign/fanout.go:184-190 | Where an anchor's range starts is the later of the start asked for and the last resume not after its end. |
| Anchors.AnchorLegal | internal/engine/apply.go:514-531 | An anchor is 0/0 or 1 <= from <= to < the narration's own sequence. |
| Anchors.SameWindow | internal/campaign/fanout.go:32-35 | Resumes that differ only at or before the first caused entry give the same window for every range. |
| Anchors.CausedTable | internal/campaign/fanout.go:275-280 | A stored log's caused table lists exactly its caused rows, in order. |
| Anchors.TableSorted | internal/campaign/fanout.go:182-183 | The caused table is sorted by world sequence, which the binary searches rely on. |
| Batches.BatchIsEach | internal/campaign/campaign.go:209-285 | With the same drawn ids and a deterministic decision, a batch is accepted exactly when its envelopes are accepted one by one, and then to the same world log, state, character logs, caused tables, resumes and discard count. |
| Batches.AppendSplits | internal/campaign/campaign.go:226-285 | A batch and its last envelope apart are accepted together exactly when both are accepted in turn, and to the same campaign. |
| Batches.FanShift | internal/campaign/fanout.go:106-113 | A fan-out at a later place of a batch makes the same logs and the same entries with their causes moved. |
| FanOut.SearchCaused | internal/campaign/fanout.go:182-183 | Binary search finds the first caused entry of a world event at or after the one asked. |
| FanOut.SearchResumes | internal/campaign/fanout.go:186 | Binary search finds how many resumes come at or before the range's end. |
| FanOut.ReanchorFrames | internal/campaign/fanout.go:177-197 | Every anchored narration is rewritten in place to its anchor, every other frame left. |
| FanOut.Try | internal/campaign/fanout.go:222-237 | Frames are folded onto a copy, each at its sequence after head, and refused as soon as one is. |
| FanOut.Record | internal/campaign/fanout.go:275-280 | Rows are appended to the caused table; the array of another slice is written only where this one had spare capacity. |
| FanOut.AppendEntries | internal/campaign/fanout.go:241-248 | Each frame is handed over unstamped, in order. |
| FanOut.Rouse | internal/campaign/fanout.go:121-136 | A log is opened, resumed or left, with the lead its case asks for. |
| FanOut.DecideOn | internal/campaign/fanout.go:151-169 | The decision's frames land whole, or the decision is resumed from the log and nothing is written. |
| FanOut.LeadOn | internal/campaign/fanout.go:137-150 | A lead that does not fold leaves the log unopened or paused. |
| FanOut.TakeTurnOn | internal/campaign/fanout.go:114-170 | One actor's turn on its working copy is the turn on values, writing only that copy, its decision and arrays it may append into. |
| FanOut.TurnsOf | internal/campaign/fanout.go:114-170 | The loop over sorted ids on the working copies is the fan-out of one event on values. |
| FanOut.WorkingCopies | internal/campaign/fanout.go:97-103 | Working copies say what the logs say, and what a fan-out may write of them is new storage or a shared decision: capping leaves no spare capacity to append into. |
| FanOut.LogsApart | internal/campaign/fanout.go:97-103 | Logs of different actors share no struct, decision or array. |
| Campaign.FanOutEvents | internal/campaign/fanout.go:96-172 | The loop over the batch on working copies computes the fan-out on values, and diverges exactly when it does. |
| Campaign.FanOutBatch | internal/campaign/fanout.go:91-103 | A fan-out writes nothing the campaign holds but its decisions: every log keeps its fold, head, caused table and resumes, backing arrays and spare capacity included. |
| Campaign.ValidateBatch | internal/campaign/campaign.go:232-248 | Each envelope is stamped with a session id against the evolving snapshot and accepted exactly when it folds at the sequence the store will assign; which id that is, of the log, is Stamps.ValidateStamps. |
| Campaign.ApplyAll | internal/campaign/campaign.go:261-269 | The live apply stops at the first refusal, the state as far as it got. |
| Campaign.Redecide | internal/campaign/fanout.go:335-339 | One log's decision begun again changes that decision and nothing else. |
| Campaign.Campaign.RestartDecisions | internal/campaign/fanout.go:334-340 | Exactly the active decisions are resumed, each from its log and the state. |
| Campaign.Campaign.AppendBatch | internal/campaign/campaign.go:212-285 | The class's append, refusals, poisoning and all, is CampaignSpec.Append; a failure keeps every log its struct and arrays. |
| Campaign.Campaign.FanOutAndLand | internal/campaign/campaign.go:249-285 | From the fan-out on: divergence or a store failure restarts the decisions, success commits. |
| Campaign.Campaign.PersistAndApply | internal/campaign/campaign.go:254-269 | The batch stored, the logs kept and the live state moved on, or the campaign poisoned. |
| Campaign.CampaignIsReady | internal/campaign/fanout.go:177-197 | In a reachable campaign every table is sorted at every event of any batch, which is what the binary searches and so AppendBatch ask. |
| Campaign.Store.AppendBatch | internal/store/store.go:79-170 | One transaction: world rows from the last sequence on, entries each from its own log's, or nothing. |
| Campaign.Store.Numbered | internal/store/store.go:139-165 | Remembering each log's next sequence numbers entries as asking for MAX(seq) every time would. |
| CampaignOpen.ResumeScan.Observe | internal/campaign/fanout.go:297-305 | After observing an event the scan says which actors are party members and after which events each turned one. |
| CampaignOpen.FoldWorld | internal/campaign/campaign.go:179-195 | One pass folds the world log and hands every applied event to the scan; an unknown variant is skipped, a refusal is a corrupt log. |
| CampaignOpen.LoadLog | internal/campaign/fanout.go:71-86 | A stored log is refolded, its caused table recorded row by row, and resumed when its actor is a party member. |
| CampaignOpen.LoadLogs | internal/campaign/fanout.go:68-89 | Every stored log is loaded, or the open fails on one that does not fold. |
| CampaignOpen.Open | internal/campaign/campaign.go:101-120 | Open gives the campaign CampaignSpec.Reopen says, and fails exactly when a stored log does not fold. |
| CampaignOpen.RunOn | internal/campaign/campaign.go:101-285 | A whole life of a campaign on the heap says what the run on values says, so every run theorem is about it. |
| Fold.OpenIndex | internal/engine/state.go:224-231 | The first open session, or the number of sessions. |
| Fold.LastIndex | internal/engine/apply.go:666-700 | The last object of an id, or -1. |
| Fold.StrictConcat | internal/campaign/campaign.go:179-195 | A stream folds exactly when its first part does and its second part does from there. |
| Fold.StrictReplays | internal/campaign/campaign.go:179-195 | A log every event of which was accepted replays to the same state. |
| FoldInvariants.StepGood | internal/engine/apply.go:54-646 | Every accepted event of positive sequence keeps references and sets: tokens name existing scenes and actors, conditions belong to living actors without duplicates, at most the last session is open, controllers are a duplicate-free set mirrored by their first, object ids are unique, explored squares have tiles. |
| FoldInvariants.ReplayGood | internal/campaign/campaign.go:179-195 | Every state a log of positive sequences replays to has all of that. |
| FoldInvariants.MergeUnique | internal/engine/apply.go:666-700 | Merging objects keeps object ids unique. |
| FoldInvariants.WithoutKeeps | internal/engine/apply.go:203-233 | Revoking removes one controller and no other, and keeps them distinct. |
| FoldInvariants.WithoutCuts | internal/engine/apply.go:219-231 | Taking one controller out leaves the others in their order. |
| FoldInvariants.EndCloses | internal/engine/apply.go:71-78 | Ending the open session leaves none open if and only if the event's sequence is not 0. |
| FoldInvariants.ResourceLandsInClamp | internal/engine/apply.go:455-487 | An accepted resource change lands within 0 and a positive maximum, on the sum where that is in range, and in 32 bits. |
| FoldInvariants.OpenIsLast | internal/engine/state.go:224-231 | The open session is the last one. |
| LastWord.DoorIsLastWord | internal/engine/apply.go:377-435 | A square stands open exactly when the last door event naming it opened it. |
| LastWord.NoteIsLastWord | internal/engine/apply.go:549-569 | A note is its last upsert not followed by its delete. |
| LastWord.SightIsLastWord | internal/engine/apply.go:579-622 | What is marked visible is exactly the last SceneSeen's squares, what is marked explored exactly the tile keys of all of them. |
| LastWord.DoorStep | internal/engine/apply.go:377-435 | One event opens or closes the square it names and no other. |
| LastWordActors.TokenIsLastWord | internal/engine/apply.go:234-314 | A token is where it was last placed or moved and as last placed or described, and stands exactly while no event took it off since it was placed. |
| LastWordActors.ControlIsLastWord | internal/engine/apply.go:131-233 | A participant controls an actor exactly when the last event about the two granted it. |
| LastWordActors.ActorIsLastWord | internal/engine/apply.go:167-188 | An actor's kind is the last one declared; a resource holds the last value an event gave it under the maximum it came with; its name, module and attributes are those it was last added with. |
| LastWordActors.ConditionIsLastWord | internal/engine/apply.go:488-505 | An actor has a condition exactly when it was applied and not removed since nor the actor, from that application's source and sequence. |
| LastWordActors.SessionIsLastWord | internal/engine/apply.go:56-78 | The open session is the one last started, unless it ended since. |
| LastWordActors.StepFrame | internal/engine/apply.go:54-646 | Every event leaves the tokens, actors, conditions and sessions it is not about. |
| LastWordScenes.SceneIsLastWord | internal/engine/apply.go:79-130 | A scene keeps the name and grid it was made with; each square's tile is the last an event carried, and each object shows every field of the last one carried, at its square or 0, 0. |
| LastWordScenes.MergeLooks | internal/engine/apply.go:666-700 | After a merge an id answers the last object carried under it, or else the one held. |
| LastWordScenes.MergeKeepsPlaces | internal/engine/apply.go:666-700 | Merging leaves every object held in its place and puts the new after them. |
| LastWordOrder.SessionsAreTold | internal/engine/apply.go:56-78 | A state's sessions are the log's, in order: each start adds one and each end closes the last at its own sequence. |
| LastWordOrder.ControllersInOrder | internal/engine/apply.go:153-233 | An actor's controllers stand in the order in which they came to control it. |
| LastWordOrder.ConditionsInOrder | internal/engine/apply.go:488-505 | An actor's conditions stand in the order in which they were applied. |
| LastWordOrder.ReplayIsStrict | internal/campaign/campaign.go:179-195 | A replay is the strict fold of the log's events of known kind. |
| Refusals.SessionTaken | internal/engine/apply.go:56-78 | A session starts if and only if none the log started is open, its name has at most 256 bytes and its id 1 to 128; one ends if and only if one is open. |
| Refusals.SceneTaken | internal/engine/apply.go:80-130 | A scene is accepted if and only if the log made none of its id, that id has 1 to 128 bytes and its name at most 256, and its object ids have 1 to 128 bytes and are distinct; a SceneSeen or door event if and only if the log made the scene and a door's square is given. |
| Refusals.ActorTaken | internal/engine/apply.go:132-165 | An actor is accepted if and only if none of its id is there, it names no controller, and its id, name, module and keys are within bounds. |
| Refusals.ControlTaken | internal/engine/apply.go:167-233 | A grant or revoke is accepted if and only if the actor is there and the participant id has 1 to 128 bytes. |
| Refusals.ActorLeaves | internal/engine/apply.go:316-375 | An actor is removed if and only if it is there and no token the log left standing is its. |
| Refusals.ResourceTaken | internal/engine/apply.go:455-487 | A resource change is accepted if and only if the log gave the actor that resource and the new value is the sum held to 0 and a positive maximum. |
| Refusals.TokenPlacedTaken | internal/engine/apply.go:234-256 | A token is placed if and only if none of its id stands, its id has 1 to 128 bytes, the log made its scene, its actor is there and a position is given. |
| Refusals.TokenTaken | internal/engine/apply.go:258-314 | A token is described or removed if and only if it stands, moved if and only if it stands, a square is given and the reason and scene id are within bounds; a hide is always accepted. |
| Refusals.ConditionTaken | internal/engine/apply.go:488-505 | A condition is applied if and only if the actor is there, lacks it, and its id has 1 to 128 bytes; removed if and only if the actor is there and has it. |
| Refusals.WhisperTaken | internal/engine/apply.go:534-547 | A whisper is accepted if and only if its text has 1 to 8192 bytes and every actor it names is there, an unnamed sender aside. |
| Refusals.NarrationTaken | internal/engine/apply.go:506-532 | A narration is accepted if and only if its text has 1 to 8192 bytes, its speaker at most 256, and it anchors nothing or a range of sequences before its own. |
| Refusals.NoteTaken | internal/engine/apply.go:549-569 | A note is written if and only if key, title and text are within bounds, deleted if and only if the log left it there. |
| Refusals.TestimonyTaken | internal/engine/apply.go:437-453 | Testimony is accepted if and only if its ids and name are within bounds. |
| Refusals.OnlyUnknownIsUnknown | internal/engine/apply.go:640-645 | What is not accepted is refused, but for a payload of no known kind. |
| GridKey.KeyInjective | internal/engine/apply.go:377-435 | Different squares have different door keys. |
| GridKey.KeySpells | internal/engine/terrain.go:55-62 | A text is a square's key if and only if it is x and then y in decimal, without leading zeros, around a comma. |
| TextOrder.Sorted | internal/campaign/fanout.go:201-217 | The elements of a set in ascending byte order. |
| TextOrder.LeqIsBefore | internal/campaign/fanout.go:201-217 | One text comes before another exactly when it begins it or has the smaller byte where they first differ. |
| TextOrder.FirstUnique | internal/campaign/fanout.go:201-217 | The byte order has one first element. |
| GoHeap.Append | internal/campaign/fanout.go:100-102 | Go's append: within capacity it writes the shared array's first spare place, past it a new array. |
| GoHeap.CopyMap | internal/engine/state.go:140-221 | A map copied entry by entry. |
| EngineState.State.Snapshot | internal/engine/state.go:140-221 | A snapshot says what its source says and shares no storage with anything. |
| EngineState.ScenesApart | internal/engine/state.go:140-221 | The parts of different scenes are different storage. |
| Engine.StartSession | internal/engine/apply.go:56-70 | Refused while a session is open, or a name or id is out of bounds; else a session is pushed. On the heap, exactly that step and nothing on a refusal. |
| Engine.EndSession | internal/engine/apply.go:71-78 | The open session is closed in place at the event's sequence. On the heap, exactly that step and nothing on a refusal. |
| Engine.CreateScene | internal/engine/apply.go:79-130 | A new scene with distinct object ids of legal length, in storage of its own. On the heap, exactly that step and nothing on a refusal. |
| Engine.AddActor | internal/engine/apply.go:131-166 | A new actor nobody controls, its keys within bounds. On the heap, exactly that step and nothing on a refusal. |
| Engine.GrantControl | internal/engine/apply.go:167-202 | A controller added once, the kind set when named, the first controller mirrored. On the heap, exactly that step and nothing on a refusal. |
| Engine.RevokeControl | internal/engine/apply.go:203-233 | A controller removed in place, the first of the rest mirrored. On the heap, exactly that step and nothing on a refusal. |
| Engine.PlaceToken | internal/engine/apply.go:234-257 | A token whose id is not taken, on an existing scene for an existing actor, accepted exactly as Refusals.TokenPlacedTaken reads off the log. On the heap, exactly that step and nothing on a refusal. |
| Engine.DescribeToken | internal/engine/apply.go:258-267 | Only a token's texts change. On the heap, exactly that step and nothing on a refusal. |
| Engine.MoveToken | internal/engine/apply.go:268-286 | Only a token's square changes. On the heap, exactly that step and nothing on a refusal. |
| Engine.RemoveToken | internal/engine/apply.go:287-314 | A token that is there goes. On the heap, exactly that step and nothing on a refusal. |
| Engine.RemoveActor | internal/engine/apply.go:315-376 | An actor with no standing token goes, with its conditions. On the heap, exactly that step and nothing on a refusal. |
| Engine.SetDoor | internal/engine/apply.go:377-436 | The door map of one scene is written in place at the key of the square. On the heap, exactly that step and nothing on a refusal. |
| Engine.ChangeResource | internal/engine/apply.go:455-487 | Accepted exactly when the value the event carries is the clamped sum. On the heap, exactly that step and nothing on a refusal. |
| Engine.ApplyCondition | internal/engine/apply.go:488-505 | A condition an actor does not have is appended. On the heap, exactly that step and nothing on a refusal. |
| Engine.Narrate | internal/engine/apply.go:506-533 | Text, speaker and anchor are bounded; state is untouched. On the heap, exactly that step and nothing on a refusal. |
| Engine.Whisper | internal/engine/apply.go:534-548 | Every actor named must exist; state is untouched. On the heap, exactly that step and nothing on a refusal. |
| Engine.UpsertNote | internal/engine/apply.go:549-562 | A note within bounds is written at the event's sequence. On the heap, exactly that step and nothing on a refusal. |
| Engine.DeleteNote | internal/engine/apply.go:563-570 | A note that is there goes. On the heap, exactly that step and nothing on a refusal. |
| Engine.HideToken | internal/engine/apply.go:571-578 | A token goes whether or not it was there. On the heap, exactly that step and nothing on a refusal. |
| Engine.SeeScene | internal/engine/apply.go:579-623 | Terrain and explored squares are unioned in place, objects merged, sight replaced. On the heap, exactly that step and nothing on a refusal. |
| Engine.RemoveCondition | internal/engine/apply.go:624-646 | The first condition of the id is cut out of the array. On the heap, exactly that step and nothing on a refusal. |
| Engine.PushController | internal/engine/apply.go:167-202 | Appending a controller writes this actor's array, within its capacity or a new one, and no other actor. |
| Engine.WriteResource | internal/engine/apply.go:455-487 | Writing one entry of an actor's resource map in place changes that entry of that actor alone. |
| Engine.MirrorControl | internal/engine/apply.go:704-712 | controller_id becomes the first of controller_ids, or empty when there is none. |
| Engine.StandingToken | internal/engine/apply.go:343-360 | The first of an actor's standing tokens in id order, or none exactly when it has none. |
| EngineState.ActorsApart | internal/engine/state.go:140-221 | The struct, resource map and controller list of different actors are different storage. |
| Engine.MergeObjects | internal/engine/apply.go:666-700 | Merging through an index of ids replaces the last object of an id or appends, as the fold says. |
| Engine.KeysBounded | internal/engine/apply.go:714-725 | Accepted exactly when every key has 1 to 128 bytes. |
| Engine.Apply | internal/engine/apply.go:54-646 | Apply lands exactly at the fold's step; a refused or unknown event leaves the state unchanged. |
| Engine.ApplyApart | internal/engine/apply.go:41-42 | Apply on one state leaves any state that shares no storage with it unchanged. |
| Engine.SnapshotIsolated | internal/engine/state.go:139-221 | After a snapshot any interleaving of events on the two leaves each where its own events alone would. |
| ClientFold.State.StartSession | client/src/fold.ts:62-71 | In the browser a session starts: it throws exactly when the server refuses, and else mirrors the server's state. |
| ClientFold.State.EndSession | client/src/fold.ts:72-77 | In the browser the open session ends: it throws exactly when the server refuses, and else mirrors the server's state. |
| ClientFold.State.CreateScene | client/src/fold.ts:78-133 | In the browser a scene is created, its objects checked by a set: it throws exactly when the server refuses, and else mirrors the server's state. |
| ClientFold.State.SetDoor | client/src/fold.ts:134-153 | In the browser a door is set: it throws exactly when the server refuses, and else mirrors the server's state. |
| ClientFold.State.AddActor | client/src/fold.ts:154-178 | In the browser an actor is added, the empty key refused apart from the long ones: it throws exactly when the server refuses, and else mirrors the server's state. |
| ClientFold.State.GrantControl | client/src/fold.ts:179-196 | In the browser control is granted: it throws exactly when the server refuses, and else mirrors the server's state. |
| ClientFold.State.RevokeControl | client/src/fold.ts:197-204 | In the browser control is revoked: it throws exactly when the server refuses, and else mirrors the server's state. |
| ClientFold.State.PlaceToken | client/src/fold.ts:205-225 | In the browser a token is placed: it throws exactly when the server refuses, and else mirrors the server's state. |
| ClientFold.State.MoveToken | client/src/fold.ts:226-236 | In the browser a token is moved: it throws exactly when the server refuses, and else mirrors the server's state. |
| ClientFold.State.DescribeToken | client/src/fold.ts:237-246 | In the browser a token is described: it throws exactly when the server refuses, and else mirrors the server's state. |
| ClientFold.State.RemoveToken | client/src/fold.ts:247-256 | In the browser a token is removed: it throws exactly when the server refuses, and else mirrors the server's state. |
| ClientFold.State.RemoveActor | client/src/fold.ts:257-284 | In the browser an actor is removed: it throws exactly when the server refuses, and else mirrors the server's state. |
| ClientFold.State.HideToken | client/src/fold.ts:285-308 | In the browser a token is hidden: it throws exactly when the server refuses, and else mirrors the server's state. |
| ClientFold.State.SeeScene | client/src/fold.ts:309-357 | In the browser a scene is seen, objects replaced by the first index of their id: it throws exactly when the server refuses, and else mirrors the server's state. |
| ClientFold.State.ApplyCondition | client/src/fold.ts:358-372 | In the browser a condition is applied: it throws exactly when the server refuses, and else mirrors the server's state. |
| ClientFold.State.RemoveCondition | client/src/fold.ts:373-388 | In the browser a condition is removed: it throws exactly when the server refuses, and else mirrors the server's state. |
| ClientFold.State.UpsertNote | client/src/fold.ts:389-396 | In the browser a note is written: it throws exactly when the server refuses, and else mirrors the server's state. |
| ClientFold.State.DeleteNote | client/src/fold.ts:397-402 | In the browser a note is deleted: it throws exactly when the server refuses, and else mirrors the server's state. |
| ClientFold.State.ChangeResource | client/src/fold.ts:403-427 | In the browser a resource changes: it throws exactly when the server refuses, and else mirrors the server's state. |
| ClientFold.State.Narrate | client/src/fold.ts:428-447 | In the browser a narration is checked, its anchor written another way: it throws exactly when the server refuses, and else mirrors the server's state. |
| ClientFold.State.Whisper | client/src/fold.ts:448-456 | In the browser a whisper is checked: it throws exactly when the server refuses, and else mirrors the server's state. |
| ClientFold.State.Apply | client/src/fold.ts:57-470 | One event: the browser throws exactly when the server refuses and else mirrors its state. |
| ClientFold.Run | client/src/fold.ts:51-55 | On every stream the browser stops at the event the server stops at, and has mirrored its state on every event before it. |
| ClientFold.MergeAll | client/src/fold.ts:309-357 | Replacing by first index is the server's replacing by last index, since object ids are unique. |
| ClientFold.ReplayUnique | client/src/fold.ts:309-357 | Object ids are unique in every state any log replays to, whatever its sequences. |
| ClientFold.CheckKeys | client/src/fold.ts:509-513 | Refusing the empty key and then the long ones bounds keys as the server does. |
| ClientFold.CheckObjects | client/src/fold.ts:78-133 | The set of ids seen refuses exactly an illegal or repeated object id. |
| ClientFold.FoldedAt | client/src/fold.ts:51-55 | How far a stream folds is the one prefix that replays and cannot be extended. |
| Connection.SessionHoldsItsLog | client/src/wire.ts:139-244 | Against any server that sends the log it names in order from the cursor or from entry 1, every interleaving of frames, closes, late messages, switches and reconnects leaves the session's log the first `lastSeq` entries of the log held, its state the fold of the longest prefix that folds, and a failure exactly when the whole does not. |
| Connection.AdvanceCurrent | client/src/wire.ts:203-244 | Any one event keeps that. |
| Connection.FoldsIngest | client/src/session.ts:207-222 | Ingesting an entry keeps derived state the fold of the longest folding prefix. |
| Connection.CommandsSettle | client/src/wire.ts:158-296 | In every interleaving each command is answered at most once, by its own result or its own socket's close, and none waits past that close or is lost, if and only if no send takes the id of a command still waiting. |
| Connection.DistinctNeverClash | client/src/wire.ts:273-283 | Request ids named apart, and apart from the wire's own, never clash. |
| Connection.CloseSettles | client/src/wire.ts:158-180 | A close answers its own socket's commands and leaves every other waiting. |
| Connection.ResultSettles | client/src/wire.ts:203-226 | A result answers the command of its id. |
| Connection.SendSettles | client/src/wire.ts:273-296 | A command sent is waiting on the socket held, or answered at once. |
| Connection.ClashOrphans | client/src/wire.ts:283-294 | Taking the id of a command still waiting leaves that command without an answer for good. |
| Connection.OrphanStays | client/src/wire.ts:42-44 | A command without an answer and not waiting never gets one. |
| Connection.MintedApart | client/src/wire.ts:279-283 | The ids the wire mints are all different. |
| Connection.SentUnderItsId | client/src/wire.ts:273-296 | A command is written to the socket held under the id its caller gave, or else under c- and the count of ids minted, in decimal. |
| LastHeard.DialAsksForLog | client/src/wire.ts:139-147 | After any events a dial names the log the browser was last told of by the socket it then held, before any the one it remembers, and none when that is nobody's; it carries the cursor. |
| LastHeard.LogIsLastTold | client/src/wire.ts:236-243 | The log held is the one last told by the socket dialled last at the time. |
| LastHeard.PresenceIsLastWord | client/src/session.ts:182-198 | A participant is at the table exactly when the last word about it since the last snapshot was that it connected, and under the name that said. |
| LastHeard.WatchIsLastSent | client/src/session.ts:42-49 | Whom to watch, and whether it is none, is the last set sent. |
| LastHeard.HoldsLastDialled | client/src/wire.ts:139-192 | The socket held is the one dialled last. |
| Wire.Session.Ingest | client/src/session.ts:207-222 | The whole log is refolded; one that does not fold keeps the last good state and a failure. |
| Wire.Session.Empty | client/src/session.ts:200-205 | A discard empties the log, the state and the failure. |
| Wire.Session.Presence | client/src/session.ts:182-198 | A snapshot replaces the table, a change updates it, participant by participant. |
| Wire.Session.Watchables | client/src/session.ts:42-49 | A set replaces the last; who left is who the last named as controlled and this one does not. |
| Wire.LeftAre | client/src/session.ts:42-49 | Who left is, in the last set's order, exactly those it named as controlled that the next does not name, everyone when that names none and nobody when the last named none. |
| Wire.Wire.Connect | client/src/wire.ts:139-183 | A dial names the log held, else the one remembered, unless nobody's, and the cursor. |
| Wire.Wire.Reconnect | client/src/wire.ts:185-192 | The socket held is forgotten before the next is dialled. |
| Wire.Wire.OnClose | client/src/wire.ts:158-172 | The loop over the pending map answers exactly this socket's commands. |
| Wire.Wire.OnMessage | client/src/wire.ts:176-271 | A message of a socket no longer held is dropped; any other is handled by its kind. |
| Wire.Wire.OnEvent | client/src/wire.ts:227-235 | Sequence 1 after an entry restarts the log; the cursor only rises. |
| Wire.Wire.OnResult | client/src/wire.ts:206-226 | A result is matched by its request id alone. |
| Wire.Wire.Restart | client/src/wire.ts:194-197 | A reset returns the cursor to 0 and empties the session. |
| Wire.Wire.Send | client/src/wire.ts:273-296 | A command is written to the socket held under its id or a minted one, or answered at once. |
| Wire.Browse | client/src/session.ts:37-50 | A browser and everything that happens to it is the run on values, so what holds of every run holds of it. |
| Adventure.Load | internal/adventure/load.go:48-137 | Load gives the adventure a bundle's files say when it is well-formed, and refuses exactly when no reading of them is. |
| Adventure.LoadActors | internal/adventure/load.go:216-307 | Actors in file order, each field its file's, of kind PARTY_MEMBER exactly when the file says party_member and NON_PARTY exactly when it says non_party; ids distinct, statblocks within the ruleset; refused exactly when some file breaks that. |
| Adventure.CheckStatblock | internal/adventure/load.go:281-299 | Every attribute is a number property, every resource a resource property at most its positive maximum. |
| Adventure.LoadScenes | internal/adventure/load.go:387-504 | Scenes in file order, ids distinct, token ids distinct across all of them; refused exactly when some file breaks that. |
| Adventure.LoadPlacements | internal/adventure/load.go:506-535 | Placements within the grid, of declared actors, with token ids not seen before. |
| Adventure.PlacementsInOrder | internal/adventure/compile.go:88-98 | A scene's placements come between those of the scenes before and after it, in the order it declares them. |
| Adventure.LoadNotes | internal/adventure/load.go:554-591 | Notes in file and then declared order, within bounds, keys distinct; refused exactly when not. |
| Adventure.NotesInOrder | internal/adventure/load.go:554-591 | A file's notes come between those of the files before and after it, in the order it declares them. |
| AdventureCompile.CompiledFolds | internal/adventure/compile.go:38-120 | A well-formed adventure that collides with nothing compiles to a batch that folds whole, event by event, on the state it was compiled against, under any session ids. |
| AdventureCompile.InstallsExactly | internal/adventure/compile.go:38-120 | The result is that state, every earlier entry unchanged, and exactly the declared scenes, actors, placements and notes, each field as declared: scenes blank, actors uncontrolled and of the declared kind, notes PUBLIC. |
| AdventureCompile.BringsPlayable | internal/adventure/load.go:216-535 | Every token an adventure brings stands on a square of its scene's grid for one of its actors; every actor it brings is named, of one of the two kinds, with properties of the ruleset and no resource above its positive maximum; scenes and notes are within bounds. |
| AdventureCompile.LoadingAppends | internal/adventure/compile.go:38-120 | Loading it into a reachable campaign appends the whole batch and leaves that state with what the adventure declares, unless the store fails. |
| AdventureCompile.LoadingSays | internal/adventure/load.go:193-307 | From the files on: an actor installed is a party member of the state reached exactly when its file says party_member, its other fields the file's, and every scene, placement and note of every file is there as the file has it. |
| AdventureCompile.BatchReads | internal/adventure/compile.go:38-120 | A batch says which adventure it is first and narrates its opening, unanchored, last, with scenes, actors, placements and notes between in that order. |
| AdventureCompile.Compile | internal/adventure/compile.go:38-120 | The batch in its binding order, or nothing when an id collides or a scene does not build. |
| AdventureCompile.CheckCollisions | internal/adventure/compile.go:168-192 | Accepted exactly when no declared id or key is in the state. |
| AdventureCompile.BuildActor | internal/adventure/compile.go:145-160 | An actor built from copies of its maps, controlled by nobody. |
| AdventureCompile.EmitTokens | internal/adventure/compile.go:88-98 | The nested loops emit every placement in scene and then declared order. |
| ArtInstall.Run | cmd/vtt/art.go:113-240 | With a fault at any step of any install and any answer from the lookups, art/ ends as it began or overridden by every source, and succeeds exactly when admitted, unharmed and resolving; exact when no working file was left over. |
| ArtInstall.CopyAll | cmd/vtt/art.go:183-208 | The copies land one by one, or all are undone at the first that fails. |
| ArtInstall.InstallOne | cmd/vtt/art.go:253-289 | What one install did is in its record, on failure too: undoing the record restores what was there. |
| ArtInstall.Undo | cmd/vtt/art.go:185-201 | The records are undone in reverse. |
| ArtInstall.UndoesAll | cmd/vtt/art.go:185-201 | A whole batch undone in reverse leaves what was there, but for working files. |
| ArtInstall.UndoInverts | cmd/vtt/art.go:185-201 | Undoing one install restores the directory before it, but for working files of its name. |
| ArtInstall.LandedOverrides | cmd/vtt/art.go:228-232 | With the set-aside files removed, a batch that landed is art/ overridden by every source. |
| ArtInstall.Preflight | cmd/vtt/art.go:131-180 | Admitted exactly when names are distinct, sources are regular art files, and nothing is installed under them unless forced. |
| ArtInstall.WorkApart | cmd/vtt/art.go:266-280 | A set-aside or temporary name is no art filename and no other file's. |
| ArtInstall.CheckArtId | internal/artlib/artlib.go:481-508 | The loop accepts exactly kebab-case ids of 1 to 250 bytes. |
| ArtInstall.CheckArtFileName | internal/artlib/artlib.go:522-553 | An art id with exactly a picture or sidecar extension. |
| ArtInstall.StemIsArtId | cmd/vtt/art.go:179 | Trimming both extensions off an art filename leaves its id. |
| ArtLibrary.Library.CaseOnlyMatch | internal/artlib/artlib.go:601-649 | The entry reported of a name is the first, in order, that is it in another case, and none is reported exactly when there is none. |
| ArtLibrary.Library.Resolve | internal/artlib/artlib.go:664-706 | An id is installed exactly when an entry carries its name as spelt; else a miscased picture is reported before a miscased sidecar. |
| Utf8Clip.ClipIs | internal/artlib/artlib.go:380-390 | Clip is always valid UTF-8: the sanitised text, which RunReplacedOnce and ValidStays determine, when it fits, else its longest beginning of whole characters within the limit and the ellipsis, so at most limit+3 bytes; valid text that fits is unchanged. |
| Utf8Clip.RunReplacedOnce | internal/artlib/artlib.go:384-385 | Valid text before a run of bytes that begin no character is kept, the run becomes one U+FFFD, and what follows is sanitised in its turn. |
| Utf8Clip.BadRunFound | internal/artlib/artlib.go:384-385 | Text that is not valid is valid text, such a run and a rest, so that is what becomes of every text. |
| Utf8Clip.RuneIsEncoded | internal/artlib/artlib.go:382-385 | Text begins with a character of n bytes exactly when its first n bytes are what section 3 of RFC 3629 encodes some code point as, surrogates aside. |
| Utf8Clip.CutKeepsWhole | internal/artlib/artlib.go:380-390 | The second pass keeps exactly the whole characters that fit. |
| Utf8Clip.ToValidIsValid | internal/artlib/artlib.go:384-385 | The first pass leaves valid UTF-8. |
| Utf8Clip.ValidStays | internal/artlib/artlib.go:384-387 | Valid text is left as it is. |

## Left out

- Campaign.Campaign.AppendBatch: holds engine states as values, where the server holds them on the heap; `Engine.Apply` and `Engine.SnapshotIsolated` are what lets one stand for the other. The session id an append writes into the caller's envelope before a refusal is not modelled.
- Campaign.Store.AppendBatch: `commits` stands for everything SQLite may refuse, empty and repeated event ids included.
- CampaignOpen.Open: a stored log is given as its rows, so one without rows does not exist.
- ArtInstall.Run: undo steps succeed, as do the removals of set-aside files; creating `art/` itself and the off-grid warning are not modelled.
- Connection.SessionHoldsItsLog: a log's contents are given once for the whole run, which is sound because logs only grow; a failure's wording is not modelled, only that there is one.
- ClientFold.State.Apply: JavaScript's aliasing of objects between states is not modelled; a state the fold threw out of is not read again.
- Engine.RemoveActor: assumes no token has the empty id, as no reachable state does; in a state holding one the two folds would differ.
- Sequences and int64 counters are unbounded, so neither overflow in Go nor the loss of precision past 2^53 in TypeScript is modelled; int32 values are bounded.
- SQLite, file locks, subscriptions, `WatchAppends`, notifications and goroutines: each locked method is one atomic step.
- Protobuf and JSON encodings, error texts, `occurred_at`, participant and event ids, `module_data` and the payload fields no fold reads.
- `internal/perceive` beyond the frames that introduce a party nobody sees, `internal/mapdef` and `internal/rules`: parameters. What mapdef builds has distinct object ids of 1 to 128 bytes; a ruleset's property keys have 1 to 128 bytes.
- A failure of the random source for session ids, and of decoding an adventure's directory beyond one file not decoding.
- An actor's attribute map and a scene's or actor's pointees that nothing writes (tiles' references, one resource's values) are values where Go holds references.
- Sidecar parsing, `Validate`, picture checks and the HTTP route of the art library; the folding of letter case is a parameter.
- The order of participants, `Blocked`, `covers`, the player helpers, the gateway's command validators and tables of who may do what: single-function facts.
- The dump, the MCP server, the CLI's boot, the views and the Python tools: plumbing and rendering.
