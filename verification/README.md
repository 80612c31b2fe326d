# Deterministic match core: model and proofs

These Dafny modules model the deterministic core of a bullet-hell battle server and prove what its
records, ledgers and tables promise. Objects whose methods update fields are classes proved against a
specification function of the old state; theorems over whole runs are stated about that function.

* **Replay container and hash chain.** `Bytes`, `Text`, `DemJson`, `JsonInversion`, `DemHeader`, `ChainLog`,
  `DemContainer`, `Replay`: the JSON printer and the recursive-descent parser undo each other, recordings come
  back from their bytes entry by entry, and a chain head seals everything before it (string escapes follow
  section 7 of RFC 8259). `Unicode`: escapes read as UTF-8. `Recordings`: the recorded lines say which operations
  were recorded.
* **Results.** `JsonScan`, `FlatJson`, `FieldNames`, `WordScan`, `ResultFields`, `FieldLetters`, `ResultNames`,
  `ResultAgreement`, `Agreement`, `Wording`, `Submission`: the verifier finds fields by scanning text; the scans are
  exact on what the builder prints, and a forbidden word can come only from what a match carries, so that the two
  agree. `Snapshots` reads the printed fields off the simulation's state. `Verdicts` and `TrueResults`: what an
  accepted result says is true of its match.
* **Cards.** `CardHand`, `CardCosts`, `CardEffects`: the ledger of hand and cyclic deck, energy and cooldowns, and
  purges independent of order.
* **Simulation.** `SimTypes`, `BossLedger`, `TransferLedger`, `SimSteps`, `SimInvariants`, `Simulation`, with `HandRuns`
  and `EventCount` on the hands and the event cursor over whole runs; `Guards`: what is accepted; `Positions`: where
  players go; `Blows`: what damage they do; `Agendas`: in which order mode actions act.
* **Server.** `ServerSteps`, `ServerInvariants`, `BattleServer`: the match lifecycle; `Registrations`: a refused ticket
  changes nothing; `RosterLocks`: a begun match admits nobody; `Configurations`: a match is played as configured;
  `ServedResults`: the results built in any reachable state; `Witnesses`: commands that reach them.
* **Boss race.** `RaceBullets`, `RaceField`, `RaceLedger`, `RaceSteps`, `RaceRuns`, `BossRace`; `RaceDamage` and
  `RaceScores`: what a hit does and what it pays; `RaceWhole` joins bullets, cards and ledgers in one run.
* **Wire frames.** `WireFields`, `WireFrames`, `WireCodec`.
* **Transport edge.** `Transport`, `TransportRuns`, `TransportEdge`, and `SessionNames`, which joins it to the server.
* **Geometry and phase machines.** `Judgment`, `Mechanics`.

Conventions. A byte string is a `string`, a character cast to a byte is taken modulo 256. Digest, SHA-256 and the
compressor are function parameters; a theorem that needs them to be inverse or injective says so, and tamper
evidence is stated without that as "equal or here is a collision". C++ division is written out (`Judgment.Quot`).
Bullet motion, spawning patterns and clocks are arbitrary functions or inputs. A class keeps a ghost history where
the program hands events out and forgets them.

Where the code differs from what is said of it, the model follows the code:

* An empty string expectation is met by every text (`FlatJson.EmptyExpectationAlwaysMet`).
* A match with a forbidden word in a player id or in a string it carries has a result that is built and then refused
  (`ServedResults.WordyPlayerIsRefused`, reached in `Witnesses.RefusedResultExists`); the exact condition is in
  `Submission.BuilderAndVerifierAgree`. `wallet` is a valid player id.
* The chain seals its fields if and only if they hold no `|` (`ChainLog.SealHoldsIffPipeFree`).
* A ticket whose seed conflicts with the match's leaves its player without a hand (`HandRuns.HandFollowsSeed`,
  `Witnesses.HandlessReached`); the comment at src/server.cpp:655-657 says the hand is dealt all the same.
* A mode action whose id holds a separator is recorded like another one (`Recordings.ActionTwin`).
* The split pass binds the host by reference and appends to the same vector (src/boss_race.cpp:1147, 1172); the model
  copies the host, which is what the comment there intends.
* The fist never reaches its full length: its strike ends one tick before (`Mechanics.ReachGrows`), and a phase of
  zero ticks still lasts one (`Mechanics.TickedIs`).
* The hit radius of the fist is squared without a sign check, so that a negative one hits like its absolute value
  (`Mechanics.IronFist.HitsPoint`); that of the capsule is not.

## Model

| member | source | states |
|---|---|---|
| Bytes.PutUint | src/dem.cpp:42-57 | appends exactly the little-endian bytes of the value, whatever the width; inverse of GetUint by UintReadsBack |
| Bytes.GetUint | src/dem.cpp:68-97 | reads the field at the cursor or refuses a short buffer and leaves the cursor |
| Bytes.UintReadsBack | src/dem.cpp:42-97 | a written integer field reads back, with the cursor behind it |
| Bytes.PrefixedReadsBack | src/dem.cpp:63-113 | a length-prefixed string of at most 65535 bytes reads back |
| DemJson.DemJsonParser.ParseString | src/dem.cpp:203-451 | the parser object moves its cursor as the grammar of strings and escapes demands, or fails where that fails |
| DemJson.DemJsonParser.ParseNumber | src/dem.cpp:203-451 | the same for numbers |
| DemJson.DemJsonParser.ParseValue | src/dem.cpp:203-451 | the same for values within the depth limit; terminates on every text |
| DemJson.DemJsonParser.ParseDocument | src/dem.cpp:203-451 | succeeds exactly when the whole text is one value, and yields that value |
| Unicode.EscapedTextReads | src/dem.cpp:325-411 | a document that spells any Unicode text in escapes, of either case, with surrogate pairs where due, is read as the UTF-8 bytes of that text, from which the text comes back |
| Unicode.LoneSurrogateRefused | src/dem.cpp:394-407 | a surrogate without its partner is refused |
| JsonInversion.ParseInvertsPrint | src/dem.cpp:118-146 | parsing undoes printing on every printable document: any bytes in strings, any nesting within the limit |
| JsonInversion.DepthLimitIsExact | src/dem.cpp:203-451 | a value n arrays deep is read back if and only if n is at most the depth limit |
| DemHeader.HeaderRoundTrip | src/dem.cpp:153-185 | decoding the encoding of every header gives that header: quotes, control bytes and high bytes, any players, signed ticks, boss hp recorded or not |
| DemHeader.EncodeDemHeaderJson | src/dem.cpp:153-185 | the text built by appending is the printed header document |
| DemHeader.DecodeDemHeaderJson | src/dem.cpp:489-533 | binds exactly the members of the parsed document, refusing what does not bind |
| ChainLog.VerifyChain | src/chain_log.cpp:69-110 | accepts exactly the sound chains; of any other it names the first bad entry and its fault |
| ChainLog.ReasonOf | src/chain_log.cpp:69-110 | the reason given is the first fault of the chain |
| ChainLog.AppendKeepsSound | src/chain_log.cpp:158-173 | appending to a sound chain gives a sound chain |
| ChainLog.OperationChainLog.AppendEntry | src/chain_log.cpp:158-173 | the log object grows by one linked entry and stays sound |
| ChainLog.OperationChainLog.AppendMatchSeed | src/chain_log.cpp:112-119 | the seed is recorded as an entry at tick 0 of the canonical seed payload |
| ChainLog.OperationChainLog.AppendInput | src/chain_log.cpp:121-140 | an input is recorded with the digest of its canonical payload |
| ChainLog.OperationChainLog.AppendModeAction | src/chain_log.cpp:142-156 | a mode action is recorded with the digest of its canonical payload |
| ChainLog.OperationChainLog.Verify | src/chain_log.cpp:195-197 | every log built by appending verifies |
| ChainLog.MaterialInjective | src/chain_log.cpp:52-59 | between the separators the digest material determines every field it covers |
| ChainLog.SameHeadSameChain | src/chain_log.cpp:52-110 | two accepted chains with one head are equal entry by entry, or show a collision of the digest |
| ChainLog.InjectiveDigestSealsChain | src/chain_log.cpp:52-110 | with an injective digest they are equal |
| ChainLog.PipesBreakTheSeal | src/chain_log.cpp:52-59 | a separator in any field of an accepted chain gives it a twin: another accepted chain under the same head, whatever the digest |
| ChainLog.SealedAgainstAll | src/chain_log.cpp:52-110 | a chain of separator-free fields is told from every accepted chain, separator-free or not: equal, or a collision of the digest |
| ChainLog.SealHoldsIffPipeFree | src/chain_log.cpp:52-110 | with a digest that never collides, an accepted chain is the only one under its head if and only if none of its fields holds a separator |
| DemContainer.EncodeDemBody | src/dem.cpp:538-548 | the entries one after the other, each as its five fields |
| DemContainer.DecodeDemBody | src/dem.cpp:550-563 | reads entries to the end of the data or refuses |
| DemContainer.BodyRoundTrip | src/dem.cpp:538-563 | every list of entries within the field limit is read back |
| DemContainer.RebuildChain | src/dem.cpp:1016-1036 | the chain is rebuilt from the stored entries link by link |
| DemContainer.RebuiltFaults | src/dem.cpp:1016-1036 | a rebuilt chain can be blamed for its sequence numbers and nothing else |
| DemContainer.RebuiltSoundIffNumbered | src/dem.cpp:1016-1036 | a rebuilt chain verifies exactly when its entries are numbered 1, 2, 3 and so on |
| DemContainer.WriteDemDocument | src/dem.cpp:877-953 | the checks in the order of the source, then the container bytes |
| DemContainer.ParseDemDocument | src/dem.cpp:955-1060 | the checks in the order of the source, then the header and the entries |
| Replay.DemRecorder.RecordMatchSeed | src/dem.cpp:1065-1069 | chain and payloads stay aligned; the history grows by the seed |
| Replay.DemRecorder.RecordInput | src/dem.cpp:1071-1092 | chain and payloads stay aligned; the history grows by the input |
| Replay.DemRecorder.RecordModeAction | src/dem.cpp:1094-1108 | chain and payloads stay aligned; the history grows by the action |
| Replay.DemRecorder.NoteUserId | src/dem.cpp:1110-1115 | notes a user id without touching the recording |
| Replay.DemRecorder.Finalize | src/dem.cpp:1117-1119 | with the matching count and head the recording is written, and its bytes parse to the header and exactly the recorded lines |
| Replay.RecordingParses | src/dem.cpp:877-1060 | recording, writing, parsing: exactly the recorded entries and header come back |
| Replay.RebuildInverts | src/dem.cpp:1016-1036 | rebuilding from the stored lines gives the recorded chain |
| Replay.FrameReadsBack | src/dem.cpp:877-1060 | the frame of any container comes off cleanly |
| Replay.AcceptedIsContainer | src/dem.cpp:955-1060 | the parser accepts no byte string but those the writer can produce |
| Replay.AcceptedChain | src/dem.cpp:955-1060 | an accepted recording carries a sound numbered chain whose head and length its header names |
| Replay.SealedRecording | src/dem.cpp:955-1060 | two accepted recordings with one chain head hold the same lines, payloads included, or exhibit a collision, when one of them is separator-free |
| Recordings.InputReadsBack | src/chain_log.cpp:24-42 | the recorded text of every input gives back its sequence, direction bits, flags, slot and action id, each found behind its own key |
| Recordings.ActionReadsBack | src/chain_log.cpp:44-58 | the recorded text of a mode action gives back id, sequence and payload if and only if the id holds no separator |
| Recordings.ActionTwin | src/chain_log.cpp:44-58 | with a separator in the id two different mode actions are recorded alike |
| Recordings.LogReadsBack | src/chain_log.cpp:112-156 | every line of a recording reads back as the operation it records, in the order of recording |
| Recordings.SameLogSameOperations | src/dem.cpp:955-1060 | recordings with the same lines record the same operations |
| Recordings.SealedOperations | src/dem.cpp:955-1060 | two accepted recordings with one chain head record the same operations, or show a collision |
| JsonScan.IsTopLevelJsonObjectKey | src/result.cpp:31-61 | the scan decides whether a position is a key of the outermost object |
| JsonScan.JsonFieldValueStart | src/result.cpp:63-91 | finds the first top-level key of the name that a colon follows |
| JsonScan.ContainsJsonUintField | src/result.cpp:93-108 | the digits at the found value, and no more digits, spell the expected number |
| JsonScan.ContainsJsonStringField | src/result.cpp:496-519 | the found value is the escaped expectation |
| FlatJson.ValueStartIs | src/result.cpp:63-91 | on every flat object the lookup stops at the value of the first member of the name, and finds none otherwise |
| FlatJson.UintLookupIsExact | src/result.cpp:93-108 | true exactly when the first field of the name holds the number, whatever the other values say |
| FlatJson.StringLookupIsExact | src/result.cpp:496-519 | for a non-empty expectation true exactly when the first field of the name holds the string; quotes and key-like text in values change nothing |
| FlatJson.EmptyExpectationAlwaysMet | src/result.cpp:496-519 | an empty expectation is met by every text: the lookup is not exact there |
| FlatJson.FieldLookupIsExact | src/result.cpp:110-112 | a field is found exactly when some member has the name |
| FlatJson.StringIsNoKey | src/result.cpp:31-91 | a string value is never taken for a key, whatever it says |
| FieldNames.JsonObjectFieldNames | src/result.cpp:217-278 | the collector computes the names its automaton defines |
| FieldNames.FieldNamesAreKeys | src/result.cpp:217-278 | on every flat object it collects exactly the keys, in order and with repeats |
| FieldNames.LooksLikeSingleJsonObject | src/result.cpp:153-204 | the bracket count closes at the last character and not before |
| FieldNames.FlatIsSingleObject | src/result.cpp:153-204 | every flat object looks like a single object |
| FieldNames.ContainsJsonFieldWithPrefix | src/result.cpp:114-151 | the search computes what its scan defines |
| FieldNames.PrefixSearchIsExact | src/result.cpp:114-151 | a field with the prefix is found exactly when some key starts with it |
| WordScan.ContainsForbiddenWord | src/result.cpp:529-586 | lower-cases the text and looks for each word |
| WordScan.WordSearchIsExact | src/result.cpp:567-586 | a forbidden word is found exactly when it stands in one key or escaped string; none arises across punctuation |
| WordScan.OccursInAnyCase | src/result.cpp:521-586 | a word is found exactly when it is spelled somewhere, in whatever mix of capitals |
| ResultFields.BuildModeResultJson | src/simulation.cpp:1855-2109 | block after block, the text built is the flat object of the fields the fixture has |
| ResultFields.FindEmitted | src/simulation.cpp:1855-2109 | the first member of a printed name is the value behind that name |
| ResultNames.PrintedKey | src/simulation.cpp:1855-2109 | what can be printed: replay fields; in a boss mode connection counts and boss fields; transfer fields once there was a transfer |
| ResultNames.TriedIsPlain | src/simulation.cpp:1855-2109 | every name the builder can print is free of quotes and escapes |
| Agreement.NoReplayComplaint | src/result.cpp:626-1325 | the replay checks of the verifier pass on what the builder prints |
| Agreement.NoBossComplaint | src/result.cpp:626-1325 | the boss checks pass, per player ones included |
| Agreement.NoTransferComplaint | src/result.cpp:626-1325 | the transfer checks pass |
| Agreement.KnownNames | src/result.cpp:280-454 | every printed name is known to the verifier |
| Wording.TriedName | src/simulation.cpp:1855-2109 | of all the names a result can have, only a name made of a player id can hold a forbidden word |
| Wording.PlayerNameHas | src/simulation.cpp:2003-2030 | each of the three field names made of a player id holds a word exactly when the id does: no word lies across the join |
| Wording.WordsAreCarried | src/result.cpp:529-586 | a printed member holds a forbidden word exactly when the id of a player with a printed field or a printed string value, as escaped, does |
| Submission.BuiltVerdict | src/result.cpp:626-1325 | on a built result every guard of the verifier passes, and the forbidden-word guard fails exactly when an id or a string the match carries holds a word |
| Submission.BuilderAndVerifierAgree | src/server.cpp:1132-1412 | a built result is accepted if and only if no player id and no string the match carries holds a forbidden word; submitted again it is a duplicate |
| Submission.WordFreeIsAccepted | src/server.cpp:1132-1412 | a match none of whose ids and texts holds a forbidden word has its result accepted |
| Verdicts.AcceptedIsTrue | src/result.cpp:626-1325 | an accepted result is of this match, server, release and players, lately settled and signed as such; every replay, boss, per player, outcome, scope and transfer field it has to tell holds, in its first member of that name, the value of the match as it stands; its hash goes on record |
| Verdicts.AcceptedSaysNothingElse | src/result.cpp:653-760 | its text has no field besides those its mode and match allow, none of the other scope, and no forbidden word |
| Verdicts.AcceptedRewardProjects | src/result.cpp:1262-1290 | its reward text has only the three projection fields and no reward word |
| Verdicts.AlteredBuiltIsRefused | src/result.cpp:626-1325 | a text that differs from the built one at a field that must be told is refused, however it is signed, and nothing is recorded |
| TrueResults.AcceptedResultsAreTrue | src/server.cpp:1228-1412 | after any commands a result the server accepts tells the event count, the tick, the hit points and the damage of each player of its own simulation, and nothing else |
| TrueResults.FalseDamageIsRefused | src/server.cpp:1228-1412 | after any commands a text that credits a player with other damage than he did is refused and nothing is recorded |
| Submission.EscapesSpellWords | src/result.cpp:529-586 | the search sees escaped texts: a text that holds no word can print one |
| Snapshots.FixtureIsSound | src/simulation.cpp:1201-1360 | the final snapshot of a match under audit tokens has the fields, shapes and types on which builder and verifier agree |
| CardHand.FindCardDefinition | src/card_hand.cpp:47-54 | finds the first definition of the id exactly when the catalog has one |
| CardHand.Hand.DrawServerCard | src/card_hand.cpp:113-124 | deals the card at the cursor of the cyclic deck unless the hand is full or the deck empty; reports whether it took one |
| CardHand.Hand.ApplyCast | src/card_hand.cpp:126-138 | validates, then books energy, cooldown, the card and the redraw; a refused cast and the sentinel change nothing |
| CardHand.Hand.Recover | src/simulation.cpp:1162-1170 | energy recovers up to its maximum, which is what keeps the ledger within its energy bound |
| CardHand.CastKeepsLedger | src/card_hand.cpp:66-138 | a cast moves one card from the hand to the played ones and deals the next |
| CardHand.DrawKeepsLedger | src/card_hand.cpp:113-124 | a draw keeps the hand and deck ledger |
| CardHand.OpeningKeepsLedger | src/ticket.cpp:123-167 | the opening hand of a checked ticket is the first deal of its deck |
| CardHand.RunKeepsLedger | src/card_hand.cpp:66-138 | over any run hand plus played cards are, as a multiset, the cards dealt from the cyclic deck; the hand is an in-order part of them and within its limit |
| CardHand.DrawKeepsLedgerIff | src/card_hand.cpp:113-124 | whatever the deck, a draw keeps the ledger if and only if it takes no card or the card at the cursor is not empty and has no blanks at its ends |
| CardCosts.CastCosts | src/card_hand.cpp:66-138 | a cast goes through only with energy for its card, but for a ten-thousandth, and when the card does not cool; it takes off the cost, down to nothing, and books the cooldown of that card alone |
| CardCosts.NoCastWhileCooling | src/card_hand.cpp:66-138 | after a cast, whatever is drawn and cast in between, the same card is refused until its cooldown is over |
| CardCosts.Recovers | src/simulation.cpp:1162-1170 | energy comes back at a four-hundredth a tick up to ten, and nothing else changes |
| HandRuns.HandsKeepLedger | src/simulation.cpp:1108-1199 | after any run of the simulation with hands from checked tickets: what a player holds, with the cards he has cast since his hand was dealt, is what the cyclic deck has dealt, in its order, within the limit; the casts are those the run entered in his book |
| HandRuns.HandSinceTicket | src/simulation.cpp:2243-2280 | from the ticket on, until a new hand is dealt, the book is that of that ticket: its opening hand and deck, played out by the casts since |
| HandRuns.HandFollowsSeed | src/simulation.cpp:2245-2280 | a newcomer holds his opening hand if and only if his seed agrees with the one the match has; otherwise he has no hand |
| CardEffects.ApplyBulletPurge | src/card_effects.cpp:183-260 | the ids of the despawn deltas, in their order |
| CardEffects.PurgeIsOrderFree | src/card_effects.cpp:64-72 | however the same bullets are listed the same ones go in the same order |
| CardEffects.PurgeTakesLeast | src/card_effects.cpp:183-260 | min(count, bullets in range) bullets go, the least by unit and id, sorted |
| CardEffects.PurgedAreInRange | src/card_effects.cpp:183-260 | every purged bullet is on the field and in range |
| CardEffects.PurgeReaches | src/card_effects.cpp:183-260 | a purged bullet lies within the radius around the centre |
| CardEffects.ApplyBulletDeltas | src/simulation.cpp:2536-2566 | despawns one after the other |
| CardEffects.DeltasRemoveExactly | src/simulation.cpp:2536-2566 | exactly the named bullets go and the others keep their order |
| CardEffects.FinisherClears | src/card_effects.cpp:270-301 | the finisher leaves no bullet |
| BossLedger.RegisterConserves | src/simulation.cpp:2208-2237 | boss damage keeps: hp plus total is the full bar, shares sum to the total, the defeat dated and announced exactly when hp is 0 |
| EventCount.SeenCursorNeverAhead | src/simulation.cpp:905-918 | no run forgets an event: a reconnect that names a count seen earlier is never refused as ahead |
| EventCount.ActionIsOneEvent | src/simulation.cpp:2568-2612 | a mode action counts one event, two when it brings its player back or its card defeats the boss, and none when its transfer is refused |
| EventCount.ConnectionIsOneEvent | src/simulation.cpp:623-657 | a change of connection counts one event, none when nothing changes |
| EventCount.OnlyTheDefeatIsAnEvent | src/simulation.cpp:2188-2237 | of a shot in a begun match only the defeat of the boss counts as an event |
| TransferLedger.QueueBalances | src/simulation.cpp:1087-1092 | queueing a transfer reserves its card and keeps the balance |
| TransferLedger.ApplyBalances | src/simulation.cpp:2614-2657 | a queued transfer is recorded once or its card is free again; rejecting one never frees a transferred card |
| TransferLedger.OnlyAuthorizedTransfers | src/simulation.cpp:2614-2657 | a card changes hands only for its owner, who is present, with the mode, the cost and the cooldown in order, and with these it does |
| SimInvariants.InputsTickExact | src/simulation.cpp:1108-1199 | a tick applies exactly the buffered inputs of the connected players, when input is enabled, and drops exactly its own |
| SimInvariants.BufferedInputAppliedOnce | src/simulation.cpp:1108-1199 | a buffered input is gone after its tick and was applied there if and only if its player is connected and input enabled |
| SimInvariants.TickKeepsInv | src/simulation.cpp:1108-1199 | a tick keeps every invariant and every transfer made before it |
| SimInvariants.AcceptInputKeepsInv | src/simulation.cpp:761-792 | an accepted or refused input keeps every invariant |
| SimInvariants.AcceptActionKeepsInv | src/simulation.cpp:1062-1106 | an accepted or refused mode action keeps every invariant |
| Simulation.RunsAreSound | src/simulation.cpp:581-1199 | every run keeps every invariant, and no transfer, once made, is undone, repeated or freed |
| Simulation.BossDamageConserved | src/simulation.cpp:2188-2237 | after any run in a boss mode damage is conserved against the configured hit points and the defeat announced once |
| Simulation.SequencesRise | src/simulation.cpp:659-1106 | per player accepted sequence numbers, inputs and mode actions together, rise strictly with bounded gaps |
| Simulation.InputsAppliedOnce | src/simulation.cpp:761-1199 | after every run no player has two real inputs applied at one tick, none is ahead of its tick, and what is buffered lies ahead within the look-ahead |
| Simulation.TransfersBalance | src/simulation.cpp:2568-2657 | the transfer count is the number of transferred cards; until a tick after the defeat a card is reserved exactly when transferred or pending once |
| Simulation.NothingAfterDefeat | src/simulation.cpp:1108-1132 | after the defeat, whatever is sent and whoever comes and goes: no damage, input, transfer, bullet or tick is added, and any tick only drops the buffers |
| Simulation.BattleSimulation.AddPlayer | src/simulation.cpp:581-606 | the player is placed, or nothing changes; invariants kept |
| Simulation.BattleSimulation.ConfigureTransferableCard | src/simulation.cpp:608-621 | the card is configured once; invariants kept |
| Simulation.BattleSimulation.SeedPlayerHand | src/simulation.cpp:2245-2280 | the hand is dealt from the ticket and the match seed set, unless the player is unknown or the seed unreadable or in conflict; invariants kept |
| Simulation.BattleSimulation.RegisterBossDamage | src/simulation.cpp:2208-2237 | damage cut at the hit points, the shares, and once the defeat with its event |
| Simulation.BattleSimulation.SetPlayerConnected | src/simulation.cpp:623-657 | connecting and disconnecting change the player and its announcements only; invariants kept |
| Simulation.BattleSimulation.ValidateInput | src/simulation.cpp:659-759 | the guards in their order give the fault of the specification |
| Simulation.BattleSimulation.AcceptInput | src/simulation.cpp:761-792 | the new state is that of the specification, the fault its guard |
| Simulation.BattleSimulation.ValidateModeAction | src/simulation.cpp:794-1060 | the guards in their order give the fault of the specification |
| Simulation.BattleSimulation.AcceptModeAction | src/simulation.cpp:1062-1106 | the new state is that of the specification, the fault its guard |
| Simulation.BattleSimulation.ApplyModeActionsForTick | src/simulation.cpp:2568-2607 | the actions of the tick in their order, then they are gone |
| Simulation.BattleSimulation.Tick | src/simulation.cpp:1108-1199 | inputs, then mode actions, then bullets; after a defeat only the buffers go; every invariant kept |
| Positions.PlayersGoWhereTheyPress | src/simulation.cpp:1108-1199 | after any run, in a tick a player who is connected, heard and lets input count goes where he presses: right alone to the lesser of x + speed and 120000, left alone to the greater of x - speed and -120000, both or neither nowhere, the same for y with up and down, 2500 when slow and 5000 otherwise; everyone else stays where he was, mode actions included |
| Positions.TickMoves | src/simulation.cpp:2174-2186 | the same of one tick from any state whose players are in the arena |
| Positions.RunsStayInArena | src/simulation.cpp:2182-2183 | no run leads a player out of the arena |
| Positions.NewcomerPlaced | src/simulation.cpp:581-606 | in a boss mode a newcomer starts at the spot of his place in the roster, elsewhere where he was put; nobody else is touched |
| Positions.SpawnPlaces | src/simulation.cpp:1509-1524 | the eight places of a boss match are apart, each sixty thousand from the centre, to the whole unit |
| Positions.SilentIsDropped | src/simulation.cpp:1119-1160 | a player silent for the configured number of ticks is disconnected |
| Blows.TickHits | src/simulation.cpp:2188-2237 | in a tick without card actions the boss of a begun match loses what the shots and cards of its players do, ten a shot and its damage a card, or what it had left; each is credited, in the order of the players, what those before him left of it |
| Agendas.RunsActInOrder | src/simulation.cpp:2568-2612 | after any run the next tick takes its mode actions by sequence number, then player, then id, and would take them in the same order had they come in any other |
| Guards.InputAcceptedIff | src/simulation.cpp:659-759 | an input is accepted if and only if all its conditions hold, stated without an order; a refused one changes nothing |
| Guards.ActionAcceptedIff | src/simulation.cpp:794-1060 | the same for mode actions |
| ServerInvariants.RunsSound | src/server.cpp:419-1704 | every run keeps cancelled ids apart from all other tables, pending from active, sessions one to one with simulated players |
| ServerInvariants.CommandSound | src/server.cpp:440-1583 | every command keeps the same |
| ServerInvariants.RegisterSound | src/server.cpp:500-670 | registration keeps the same, however far it gets |
| Registrations.RegistrationIsAtomic | src/server.cpp:500-670 | after any commands a registration is refused and changes nothing, a pending boss configuration included, or its player has a session and a seat |
| Registrations.OnlyMismatchRejects | src/server.cpp:600-654 | behind the checks only another mode or ruleset refuses a ticket: the seats of a match run out before its simulation refuses a player |
| Registrations.NoMatchIsOverfull | src/server.cpp:101-115 | after any commands no match has more tickets or players than its mode seats: four in the cooperative mode, eight in a boss mode, the configured number elsewhere |
| RosterLocks.BegunIsLocked | src/server.cpp:1697-1704 | after any commands every boss match whose combat has begun is locked |
| RosterLocks.AllSetIsLocked | src/server.cpp:1697-1704 | so is one that a tick, an accepted mode action or a change of connection left with four to eight players, all connected and ready |
| RosterLocks.BegunMatchIsClosed | src/server.cpp:576-580 | from the start of its combat until it is cancelled or retired, whatever is asked of the server, every ticket for a boss match is refused and changes nothing, and its players stay those it began with |
| RosterLocks.LockedRefuses | src/server.cpp:576-580 | a locked match refuses every ticket, and one with no other fault as boss_roster_locked |
| Configurations.ConfiguredIsPlayed | src/server.cpp:440-498 | whatever came before an accepted configuration and comes after it, the match waits with it, or is played in its mode against a boss of its hit points, or is over for good |
| ServerInvariants.CancelSound | src/server.cpp:1470-1533 | cancelling keeps the same |
| ServerInvariants.RetireSound | src/server.cpp:1535-1583 | retirement keeps the same |
| ServerInvariants.OverForGood | src/server.cpp:419-438 | cancelled and retired are absorbing under every run |
| ServerInvariants.SettledIsFrozen | src/server.cpp:1228-1412 | a settled match keeps status, simulation, hash and sessions over every run without its retirement |
| ServerInvariants.SettledHashHolds | src/server.cpp:1394-1411 | in every reachable state the recorded hash is the one the match would be built with again |
| ServerInvariants.ExecuteKeepsMatch | src/server.cpp:419-1704 | a closed match is touched by nothing |
| BattleServer.BuiltResultIsAccepted | src/server.cpp:1132-1412 | in every sound state with a sound match: the built result is accepted if and only if the match carries no forbidden word, recorded, and a duplicate when resubmitted |
| ServedResults.BuiltResultsAreAccepted | src/server.cpp:1132-1412 | after any commands the result the server builds for a match is accepted by the server as it stands if and only if the match carries no forbidden word; resubmitted it is a duplicate |
| ServedResults.WordyPlayerIsRefused | src/server.cpp:1132-1412 | the result of a begun world boss match with a forbidden word in a player id is built and then refused |
| Witnesses.RosterStarts | src/simulation.cpp:1108-1199 | a boss roster of four to eight that are all connected and have said ready fights after its first tick |
| Witnesses.RefusedResultExists | src/server.cpp:1132-1412 | commands from the empty server that lead to such a match: its result is built and refused, with nothing assumed of the server |
| Witnesses.HandlessReached | src/server.cpp:655-664 | two registrations whose seeds differ leave the second player in the match without a hand |
| BattleServer.BattleServer.MatchLifecycleStatus | src/server.cpp:419-438 | the six statuses are told apart in the order of the source |
| BattleServer.BattleServer.ConfigureBossMatch | src/server.cpp:440-498 | the pending configuration is stored normalized or the fault named |
| BattleServer.BattleServer.RegisterTicket | src/server.cpp:500-670 | adds session, match, player and hand together, or names the first fault; tables stay apart |
| BattleServer.BattleServer.AcceptInput | src/server.cpp:1000-1014 | the input reaches the running match of its player, or the refusal is named |
| BattleServer.BattleServer.AcceptModeAction | src/server.cpp:1016-1034 | the same for mode actions |
| BattleServer.BattleServer.TickMatch | src/server.cpp:1065-1080 | ticks a running match |
| BattleServer.BattleServer.BuildSignedBattleResult | src/server.cpp:1132-1178 | builds the result of a match or names what blocks it |
| BattleServer.BattleServer.SubmitBattleResult | src/server.cpp:1228-1412 | verifies, compares, records; a refused result changes nothing |
| BattleServer.BattleServer.CancelMatch | src/server.cpp:1470-1533 | clears every table of the match and marks it |
| BattleServer.BattleServer.RetireMatch | src/server.cpp:1535-1583 | closes a settled match |
| RaceBullets.RequestsNameHosts | src/boss_race.cpp:1066-1140 | requests name bullets that asked, in field order, below the last generation, at most eight hosts a player |
| RaceBullets.HeardExactly | src/boss_race.cpp:1110-1140 | a bullet splits exactly when it asks, is below the last generation, and fewer than eight of its owner did so before it in the field |
| RaceBullets.SplitGrows | src/boss_race.cpp:1142-1175 | the second pass only appends, every index keeps naming its host, each player gains eight children a host cut at the cap, whatever the order |
| RaceBullets.SpreadGrows | src/boss_race.cpp:1066-1175 | survivors moved once; behind them only children of hosts that asked in this tick, unmoved since they were made |
| RaceBullets.SpreadIs | src/boss_race.cpp:1066-1175 | survivors stand in their order, changed by one move unless they vanish; behind them, numbered on, are children of one owner and pattern with their host, one generation on |
| RaceBullets.MarkedGo | src/boss_race.cpp:1074-1085 | what was marked to vanish before this tick is gone when it begins, and nothing else |
| RaceBullets.AdvancedStaysOnScreen | src/boss_race.cpp:1176-1190 | after a step exactly those remain that are within twenty of the screen |
| RaceBullets.AdvanceKeepsSound | src/boss_race.cpp:1066-1188 | a step keeps the cap per player, distinct ids and the last generation |
| RaceBullets.KeepSound | src/boss_race.cpp:1075-1084 | removal keeps a part, no count grows |
| RaceBullets.ClearedScreenIsEmpty | src/boss_race.cpp:1353-1360 | a cleared player has no bullet left after the next step, children included |
| RaceBullets.ChangedSound | src/boss_race.cpp:724-764 | card spawns and despawns keep the cap and the ids |
| RaceBullets.FiredSound | src/boss_race.cpp:796-1054 | a wave is cut at the cap and keeps the ids |
| RaceBullets.RunsStaySound | src/boss_race.cpp:724-1188 | in every run: cap kept, ids distinct and below the next one, no bullet past the last generation |
| RaceField.BulletField.EmittedBulletsFor | src/boss_race.cpp:766-774 | counts the bullets of a player |
| RaceField.BulletField.SpawnVolley | src/boss_race.cpp:855-872 | the wave up to the first bullet that finds its owner at the cap |
| RaceField.BulletField.ApplyCardBulletDeltas | src/boss_race.cpp:724-764 | the deltas one after the other |
| RaceField.BulletField.ClearBulletsOf | src/boss_race.cpp:1353-1360 | marks and counts exactly the standing bullets of the player |
| RaceField.BulletField.MoveBullets | src/boss_race.cpp:1086-1140 | the first pass: every live bullet moved once, the requests collected under the budget |
| RaceField.BulletField.SplitHost | src/boss_race.cpp:1146-1174 | the second pass for one request; the room never underflows |
| RaceField.BulletField.AdvanceBullets | src/boss_race.cpp:1066-1188 | the three passes give the field of the specification |
| RaceLedger.DamageKeeps | src/boss_race.cpp:1284-1372 | damage keeps hp plus dealt, reported plus pending, score and the phase books |
| RaceLedger.CheckPhaseSettles | src/boss_race.cpp:1320-1372 | the phase loop ends at the closed form of the hit points |
| RaceLedger.SpellGetWithinTotal | src/boss_race.cpp:1284-1372 | bonuses never exceed the phases; without a hit none is missed |
| RaceLedger.FlushKeeps | src/boss_race.cpp:1637-1654 | the report moves the pending damage into the log; nothing pends past the eighth tick or the fall |
| RaceSteps.OthersUnmoved | src/boss_race.cpp:1264-1372 | an operation on one racer leaves the other ledger alone |
| RaceRuns.MiddleKeeps | src/boss_race.cpp:1619-1632 | timer, damage, shots and contacts keep every ledger |
| RaceRuns.RunTickSound | src/boss_race.cpp:1610-1659 | a running tick keeps ledgers, reports and the decision |
| RaceRuns.TickSound | src/boss_race.cpp:1610-1659 | every tick keeps them |
| RaceRuns.JoinSound | src/boss_race.cpp:276-298 | a newcomer keeps them |
| RaceRuns.RaceLedgersHold | src/boss_race.cpp:1264-1372 | after any run: hp plus damage is the full bar, the phase is its closed form, score is the sum of the gains, reports plus pending make up the damage |
| RaceDamage.DamageTakes | src/boss_race.cpp:1284-1317 | damage leaves zero hit points when it reaches them and takes off exactly itself otherwise; dealt and pending rise by what hit points fell |
| RaceDamage.DownWhenHitsReachTheBar | src/boss_race.cpp:1374-1405 | over any run a boss is down exactly when the damage of its racer, his damage acts and his shots that were inside it, reaches the full bar, and what he dealt is the lesser of the two |
| RaceScores.PhasePays | src/boss_race.cpp:1320-1372 | a phase that ends pays its capture bonus and a hundred for each standing bullet of its racer |
| RaceScores.DefeatPays | src/boss_race.cpp:1280-1317 | the fall of the boss pays ten thousand and the capture bonus of the last phase |
| RaceScores.PhaseEnds | src/boss_race.cpp:1320-1372 | phases end at two thirds and at one third of the full bar |
| RaceScores.MereDamagePaysNothing | src/boss_race.cpp:1284-1317 | damage that neither ends a phase nor brings the boss down pays nothing |
| RaceScores.HitsAndGrazesPay | src/boss_race.cpp:1374-1590 | a hit pays thirty, a graze a hundred, being hit nothing |
| RaceScores.TimerPays | src/boss_race.cpp:1619-1632 | every tenth tick pays each racer a hundred and ten |
| RaceScores.ReportsWhenDue | src/boss_race.cpp:1637-1655 | pending damage is reported at every eighth tick and at the fall of the boss, all of it, and otherwise nothing changes |
| RaceRuns.WinnerIsFirstDown | src/boss_race.cpp:1592-1608 | the race is over exactly when a boss is down, and the winner is the least such player |
| RaceRuns.FinishedIsFinal | src/boss_race.cpp:1610-1613 | nothing more happens to a finished race |
| RaceWhole.RacersRunAlone | src/boss_race.cpp:1610-1659 | the race with its bullets and cards: its racers are those of a run of the race alone, so every ledger holds there |
| RaceDamage.DeedDoes | src/boss_race.cpp:427-640 | in the whole race a bomb does its racer its damage, a card that is accepted that of the card, and no other deed any |
| RaceWhole.WholeRunsSound | src/boss_race.cpp:413-1188 | in every run of the whole race the bullets keep cap, ids and last generation, through waves, cards, splits and screen clears, and every hand balances with its deck and the cards cast |
| BossRace.BossRaceSimulation.constructor | src/boss_race.cpp:152-181 | an empty waiting race; zero hit points mean the default |
| BossRace.BossRaceSimulation.AddPlayer | src/boss_race.cpp:276-298 | joins or refuses; invariants kept |
| BossRace.BossRaceSimulation.AddScoreTo | src/boss_race.cpp:1264-1275 | score and event together, nothing for zero |
| BossRace.BossRaceSimulation.CheckSpellPhase | src/boss_race.cpp:1320-1372 | the loop leaves the racer in the phase of its hit points with one end and one start event a phase |
| BossRace.BossRaceSimulation.ApplyBossDamage | src/boss_race.cpp:1284-1317 | clamped damage, then the phase loop, then once the defeat: the operation whose books DamageKeeps proves |
| BossRace.BossRaceSimulation.JudgeMyBullets | src/boss_race.cpp:1374-1405 | every shot judged in order; exactly the used up ones erased, penetrating ones with one hit less |
| BossRace.BossRaceSimulation.CheckRaceWinner | src/boss_race.cpp:1592-1608 | the first player whose boss is down |
| BossRace.BossRaceSimulation.FlushBossDamage | src/boss_race.cpp:1637-1654 | each pending damage reported when due |
| BossRace.BossRaceSimulation.Tick | src/boss_race.cpp:1610-1659 | forgets the events handed out, runs the tick and counts its events; the race stays sound |
| WireFields.FieldReadsBack | src/match_lifecycle.cpp:22-110 | a field reads back as what of it travels; a list of more than 64 texts does not |
| WireFields.FrameReadsBack | src/match_lifecycle.cpp:548-674 | a frame reads back exactly when no list in it is too long |
| WireFrames.InputRoundTrip | src/match_lifecycle.cpp:513-584 | every input frame decodes to what of the input travels, with or without the card block |
| WireFrames.FittingInputTravelsWhole | src/match_lifecycle.cpp:513-584 | strings up to 65535 bytes and 8-bit slots travel whole |
| WireFrames.TicketlessHasNoTicket | src/match_lifecycle.cpp:696-713 | a frame encoded without a ticket never decodes as having one |
| WireFrames.TicketRoundTrip | src/match_lifecycle.cpp:586-713 | with a ticket, whatever the formatter of decimals does: the input comes back in any case, the ticket exactly when neither card list exceeds 64 and the text of its energy reads as a number |
| WireFrames.FittingTicketTravelsWhole | src/match_lifecycle.cpp:586-713 | a ticket of fitting lists and texts whose energy survives its text comes back whole |
| WireCodec.PushString | src/match_lifecycle.cpp:39-43 | the first 65535 bytes under their length |
| WireCodec.EncodeBattleInputPayload | src/match_lifecycle.cpp:513-538 | the pushes give the frame of the specification |
| WireCodec.ReadBattleInputBody | src/match_lifecycle.cpp:548-584 | the reads give the body and card block, or refuse |
| WireCodec.WriteTicketBlock | src/match_lifecycle.cpp:586-620 | the pushes give the ticket block that TicketRoundTrip reads back |
| WireCodec.ReadTicketBlock | src/match_lifecycle.cpp:622-674 | the reads give the ticket of the block, or refuse |
| WireCodec.DecodeBattleInputPayload | src/match_lifecycle.cpp:678-684 | takes apart exactly the frames InputRoundTrip puts together, and refuses short ones |
| WireCodec.EncodeBattleInputWithTicketPayload | src/match_lifecycle.cpp:686-694 | the input frame, the flag, the block |
| WireCodec.DecodeBattleInputTicketPayload | src/match_lifecycle.cpp:696-713 | finds a ticket only behind its flag; absent, unknown and malformed blocks are refused |
| TransportRuns.JoinUnique | src/protocol.cpp:14-16 | a key joined with a colon gives back its parts when the first holds none |
| TransportRuns.SeqKeysApart | src/protocol.cpp:14-16 | sequence keys of registered players are equal only for the same player and match |
| TransportRuns.RemoteKeysApart | src/kcp_endpoint.cpp:11-16 | endpoint keys are equal only for the same session |
| TransportRuns.NonceKeysApart | src/protocol.cpp:294-296 | nonce keys are equal only for the same session and nonce, even with a colon in the key id |
| TransportRuns.TokenIsPlain | src/ticket.cpp:19-26 | a valid audit token is non-empty and holds no colon |
| TransportRuns.RunsAreSound | src/protocol.cpp:307-439 | along every run the tables say exactly what got through, and what got through was new |
| TransportRuns.SequencesIncrease | src/protocol.cpp:356-371 | accepted packets of one player in one match have strictly increasing sequence numbers |
| TransportRuns.NoncesNeverRepeat | src/protocol.cpp:409-423 | no encrypted nonce of a session is accepted twice |
| TransportRuns.ReplaysAreExact | src/protocol.cpp:356-423 | a packet is refused as a replay exactly when its own player or session already got that far |
| TransportRuns.AcceptedIsKeyed | src/server.cpp:825-868 | an accepted encrypted packet has an integrity proof, a nonce and a positive sequence number, and carries the key of its session |
| TransportRuns.BindingsChangeByReconnect | src/kcp_endpoint.cpp:65-118 | over any run a bound session stays bound, and its endpoint differs between two points only if between them a reconnect of that very session got through, its player not connected |
| TransportRuns.EveryDatagramCounted | src/kcp_endpoint.cpp:42-123 | accepted plus rejected is the number of datagrams; malformed and mismatched ones are rejected |
| TransportEdge.BattleDispatcher.DispatchWithPayloadValidation | src/protocol.cpp:307-388 | the guards in their order, the tables changed only on acceptance |
| TransportEdge.BattleDispatcher.DispatchEncrypted | src/protocol.cpp:390-439 | the nonce noted only on acceptance |
| TransportEdge.KcpAeadPacketAdapter.ValidateEncryptedSession | src/server.cpp:825-868 | the guards of the session in their order |
| TransportEdge.KcpAeadPacketAdapter.DispatchEncrypted | src/server.cpp:750-823 | the gate of the server before the dispatcher |
| TransportEdge.KcpAeadPacketAdapter.ProcessEncryptedDatagram | src/kcp_endpoint.cpp:42-123 | a refused datagram changes only a counter, an accepted one tables, binding and log; the tables go on telling exactly what got through |
| SessionNames.SessionsAreTokens | src/server.cpp:500-670 | in every reachable state of the server the ids of every session are audit tokens |
| SessionNames.ServedEdgeIsSound | src/server.cpp:750-823 | packets answered from reachable server states: no replay gets through, no nonce twice, and the tables tell exactly what did |
| SessionNames.ServedPacketsFit | src/server.cpp:750-823 | an accepted input or action comes from a connected player of a running match and lies in its window; an accepted reconnect from a player not connected, its cursor not ahead |
| SessionNames.ServedBindingsChangeByReconnect | src/kcp_endpoint.cpp:65-118 | a binding moves only by a reconnect of its session while the server simulates its player as not connected |
| Judgment.PointSegmentDistanceSquaredMilli | src/danmaku/judgment.cpp:31-55 | the squared distance to the nearest point as cut to whole milli |
| Judgment.ExactIsLeast | src/danmaku/judgment.cpp:9-11 | the reference distance is the least to any point of the segment |
| Judgment.NearestIsClose | src/danmaku/judgment.cpp:51-52 | the cut point is within one milli of the exact one in each coordinate |
| Judgment.DistanceWithinRootTwo | src/danmaku/judgment.cpp:9-11 | computed and exact distance differ by less than the square root of two |
| Judgment.HitWithinTwo | src/danmaku/judgment.cpp:31-55 | within r - 2 always a hit, beyond r + 2 never |
| Judgment.PointInCapsule | src/danmaku/judgment.cpp:68-87 | the same for the capsule; a negative radius hits nothing |
| Mechanics.TickedIs | src/danmaku/judgment.cpp:122-163 | the closed form of both machines for all phase lengths: idle again after exactly the sum, a phase of no ticks lasting one |
| Mechanics.PhaseTimeKept | src/danmaku/judgment.cpp:165-174 | remaining plus elapsed ticks are constant within a phase |
| Mechanics.ChangesAnnounced | src/danmaku/judgment.cpp:136-163 | each change is announced at exactly one advance |
| Mechanics.ReachGrows | src/danmaku/judgment.cpp:165-181 | the reach never shrinks in the strike and stays short of the length |
| Mechanics.EdgeSweeps | src/danmaku/judgment.cpp:255-273 | the edge only moves from its start toward its end |
| Mechanics.IronFist.Start | src/danmaku/judgment.cpp:104-120 | enters the windup with its parameters |
| Mechanics.IronFist.Advance | src/danmaku/judgment.cpp:122-163 | one step of the machine with its event |
| Mechanics.IronFist.StrikeTip | src/danmaku/judgment.cpp:165-181 | the tip at the reach of the strike, the origin outside it |
| Mechanics.IronFist.HitsPoint | src/danmaku/judgment.cpp:183-195 | only the strike hits, and rightly but for two milli |
| Mechanics.BlackCurtain.Advance | src/danmaku/judgment.cpp:208-249 | one step of the machine with its event; the edge reset at the sweep |
| Mechanics.BlackCurtain.HitsPoint | src/danmaku/judgment.cpp:255-273 | a hit exactly in the sweep within the half thickness of the edge |

## Left out

- Sockets, HTTP, KCP, files, environment, wall clock, command line and the applications: input and output only.
- SHA-256, MD5, FNV, HMAC, zlib and the AEAD envelope as algorithms: parameters of the model.
- Machine overflow and vector reallocation: integers are unbounded except where a codec fixes a width.
- Bullet motion, emitters, pattern tables and angles: arbitrary functions of the state.
- Cooperative boss mode and the boss catalog: easier forms of what is proved of the boss ledgers.
- Snapshot JSON, reason tables, callbacks and the Python tools: plumbing.
- Of a mode action's JSON payload the extracted fields are carried, not the text (src/simulation.cpp:250-432).
- The two input buffers by tick are kept as one map by tick and player, the queued actions as one sequence in order of acceptance.
- Invulnerability, graze, hit counts, running hashes and counters of the simulation: bookkeeping beside the ledgers.
- The draw of random units from the match-wide seed: the seed is set and checked when hands are dealt, the units of a purge are arbitrary.
- The handshake itself and the reconnect snapshot: the transport takes a session's keys as they were agreed.
- The default ruleset of the boss race, whose damage bypasses the phase check: the ledgers are those of the mechanics ruleset.
- In the boss race movement, contacts, bomb damage and what a card's effect does to the field reach a tick as inputs or arbitrary functions.
- Test-only injection of bullets, which may exceed the last generation.
- ServedResults.BuiltResultsAreAccepted: of the snapshot the hashes, traces, peak counts and last-transfer texts are arbitrary functions of the match; that result hashes look like hashes and signatures like signatures is assumed of them.
- Verdicts.AcceptedIsTrue: speaks of mode texts that are flat objects with plain keys, as the builder prints; a field whose value is the empty text is not looked for by the verifier.
- FlatJson.UintLookupIsExact: speaks of the first field of a name, since a player may be called like a fixed suffix.
- SessionNames.ServedEdgeIsSound: of the ticket check it uses that ids are audit tokens (src/ticket.cpp:79-98); the rest of the check is a parameter, and so are the keys of a session.
- Transport: the response kind of an accepted packet is not modelled.
- WireFrames.InputRoundTrip: the version strings of an input do not travel; of its version the protocol number is carried.
- WireFrames.TicketRoundTrip: the formatter and the parser of decimals are arbitrary parameters; the theorem says what comes back in terms of them.
- RaceWhole.WholeRunsSound: hands are dealt with seeds that agree; the conflict of seeds is modelled for the simulation (`HandRuns.HandFollowsSeed`).
- CardEffects.ApplyBulletPurge: the random unit of a bullet is an arbitrary function of its place in the sorted list.
- RaceBullets.RunsStaySound: bullet ids are numbers; the program prints them behind a letter.
