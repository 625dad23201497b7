# OCGForge: proofs about its canonical codecs, projections and episode machinery

This project models the parts of OCGForge that carry state between its closed rules engine and the
outside, and proves what those parts promise.

- **Canonical safe states and observations.** A perspective-safe state is written by sorting every
  unordered collection and appending length-prefixed big-endian fields, and read by a cursor that
  checks flags, codes, order and counts. `SafeState` gives the layout and a plain reader,
  `SafeStateLaws` the two laws of every field, `SafeStateNormal` and `SafeStateContent` what sorting
  forgets, `SafeStateOrder` the canonical order without its comparators, `SafeStateLayout` (on `FieldLists`)
  the bytes field by field, `SafeStateDecoder`, `SafeStateEncoder` and `SafeStateBoundary` the code as it runs.
  `PublicObservation` and `PublicObservationCodec` do the same for the container around it.
- **Public actions.** `PublicAction`, `PublicActionKeys` and `PublicActionDomain`: the key encoder, the
  separately written recogniser, hex text, candidate domains, decision identities and the resolver,
  in both versions of the contract. `PublicLayouts` lists the fields of every such byte form.
- **Episodes.** `EpisodeDriver` and `EpisodicEnvironment` are two classes over an engine oracle that may
  answer anything or throw, and every boundary and reply is tied to what it answered; `EpisodeRuns` states
  what holds of every sequence of public calls.
- **Model inputs.** `LogicalProjection*` builds a logical input with a locator table from an observation,
  `ModelInputEncoder`, `ModelInputValidity`, `ModelInputChecks` and `ModelInputEncoding` encode it under a card
  vocabulary, `CandidateScorer` compacts the state for scoring, and `ModelPipeline` joins the three.
  `ProjectionMeaning`, `EncodingMeaning` and `ScorerMeaning` say what each of the three results holds, from the
  observation alone. `LogicalStateWriter` is the second, independent writer of the safe-state format.
- **Batches.** `BatchColumns` is one collection in ragged and padded layout; `RaggedBatches`,
  `PaddedBatches` and their `Run` modules are its thirteen instances in a batch, and `BatchPipeline` batches
  what the encoder makes. `BatchMeaning` says which cell of a batch is which element of which sample.
- **Randomness, hashing, events.** `PolicyRng`; `Sha256`, with `WordBits` and `Sha256Meaning` for its parts; and
  `EventMessages`, `EventStreams` and `EventReader`, with `EventWire` for the bytes of messages and `EventMeaning`
  for what a player is told.

Code that mutates is a class or a method with loops here too, tied by its contract to a function;
the lemmas are about those functions. A codec field is a pair of functions, `Put(x, k)` (the field followed
by the bytes `k`) and `Get(b)` (the field and what remains).

Three results say where the code is less than symmetric. Validation of an observation does not ask for
UTF-8 locators while the decoder does, so decoding an encoding succeeds exactly when the locators are
UTF-8 (`SafeStateBoundary.ObservationRoundTrip`). The logical projection accepts any token as request kind
while the encoder knows fourteen, so the encoder accepts a projection exactly when the kind is one of
those and the candidates fit 32 bits (`LogicalProjectionValidity.ProjectedIsValid`). And an event of a changed
position shows its code whenever either face is up, where the other events of a single located card need the
present face up, a code other than 0 and a controller other than 2 (`EventMessages.TurnedCodeShown`). Each has a
witness: `SafeStateBoundary.RefusedObservation`, `LogicalProjectionValidity.UnknownKindIsRefused`,
`EventMessages.TurnedCodeFails`.

## Model

| member | source | states |
|---|---|---|
| Text.RangeTestsAreTheTable | src/environment/public_safe_state.cpp:615-641 | the lead and continuation tests with the overlong, surrogate and range tests on the code point accept exactly the permitted byte sequences of section 4 of RFC 3629 |
| Text.Utf8OctetsIsGrammar | src/environment/public_safe_state.cpp:606-642 | the recogniser accepts exactly the strings the grammar of section 4 of RFC 3629 generates |
| Text.ValidUtf8 | src/environment/public_safe_state.cpp:606-645 | the loop answers yes exactly for those strings |
| Sorting.SortIsUnique | src/environment/public_safe_state.cpp:411-418 | two sorted arrangements of the same elements are the same list when only equal elements tie |
| Sorting.AnySortIsSort | src/environment/public_safe_state.cpp:451-467 | whatever arrangement the library sort returns is the one sorted list when nothing ties |
| Sorting.SortsAgree | src/environment/public_safe_state.cpp:495-500 | sorting forgets order and nothing else: two sorts agree exactly for equal multisets |
| Sorting.StrictIsUnique | src/model/logical_model_input.cpp:197-198 | two strictly ascending lists with the same members are the same list |
| Writers.Writer.U32 | src/environment/public_safe_state.cpp:44-49 | four shifted bytes are the big-endian layout of the value, whatever follows |
| Writers.Writer.U64 | src/environment/public_safe_state.cpp:51-55 | eight shifted bytes are the big-endian layout of the value |
| Writers.Writer.Count | src/environment/public_safe_state.cpp:57-62 | a count is written exactly when it fits 32 bits; otherwise a length error |
| Writers.Writer.Text | src/environment/public_safe_state.cpp:64-67 | a length-prefixed string is appended exactly when its length fits 32 bits |
| Cursors.Cursor.U32 | src/environment/public_safe_state.cpp:659-669 | the cursor reads the big-endian value and moves past it, or fails on truncation |
| Cursors.Cursor.U64 | src/environment/public_safe_state.cpp:671-680 | the same for eight bytes, by shifting the accumulator |
| Cursors.Cursor.Text | src/environment/public_safe_state.cpp:682-690 | a string is read exactly when it is complete and UTF-8 |
| Cursors.Cursor.Flag | src/environment/public_safe_state.cpp:728-735 | a boolean is one byte, 0 or 1, and nothing else |
| Cursors.GuardIsSafe | src/environment/public_safe_state.cpp:1146-1281 | a count larger than the remaining bytes divided by the least element size belongs to no encoding, so the guard refuses nothing real |
| Cursors.ListRead | src/environment/public_safe_state.cpp:1102-1122 | reading element by element with the order test gives the list exactly when the layout reader does |
| Bytes.IntComplete | src/environment/public_safe_state.cpp:44-55 | what is written big-endian at a width is read back, and nothing after it is touched |
| Bytes.ListLaws | src/environment/public_safe_state.cpp:1102-1122 | a counted, ordered list obeys both codec laws when its element does: read undoes write, and only written bytes are read |
| Bytes.OptLaws | src/environment/public_safe_state.cpp:377-391 | an optional field obeys both laws when the field does |
| SafeStateLaws.PropertiesLaws | src/environment/public_safe_state.cpp:1029-1100 | card properties: what is written is read back and only what is written is read |
| SafeStateLaws.CardLaws | src/environment/public_safe_state.cpp:470-491 | cards obey both codec laws, with the flag and identity checks of the reader |
| SafeStateLaws.LinkLaws | src/environment/public_safe_state.cpp:519-530 | chain links obey both laws |
| SafeStateLaws.EventLaws | src/environment/public_safe_state.cpp:532-549 | visible events obey both laws |
| SafeStateLaws.DeckLaws | src/environment/public_safe_state.cpp:564-579 | deck contexts obey both laws, and an unknown deck is empty |
| SafeStateLaws.ViewSound | src/environment/public_safe_state.cpp:1134-1367 | whenever a state is read it is admissible, and the input is its layout followed by what remains |
| SafeStateLaws.ViewComplete | src/environment/public_safe_state.cpp:1134-1367 | the layout of every admissible state is read back, and the bytes after it are left |
| SafeStateDecoder.ReadProperties | src/environment/public_safe_state.cpp:1029-1100 | the reader of card properties, with its count guards and order tests, agrees with the layout |
| SafeStateDecoder.ReadSortedTargets | src/environment/public_safe_state.cpp:1102-1122 | targets are read exactly when they are locators in ascending order |
| SafeStateDecoder.ReadCard | src/environment/public_safe_state.cpp:1197-1236 | a card is read exactly when its layout is there and its locator comes after the previous one |
| SafeStateDecoder.ReadEvent | src/environment/public_safe_state.cpp:1281-1311 | an event is read exactly when its layout is there and its index comes after the previous one |
| SafeStateDecoder.ReadSafeState | src/environment/public_safe_state.cpp:1134-1367 | the stateful parser with all its guards computes exactly the shortcut-free reader |
| SafeStateNormal.SortedLocators | src/environment/public_safe_state.cpp:286-320 | among sorted cards, strictly ascending locators and pairwise distinct locators are the same thing |
| SafeStateNormal.NormalizeAdmitted | src/environment/public_safe_state.cpp:286-375 | the sorted normal form of a state can be encoded exactly when the state meets what validation and 32-bit sizes ask |
| SafeStateEncoder.AppendMarkers | src/environment/public_safe_state.cpp:411-418 | link markers are appended in code order, whichever arrangement the sort returns |
| SafeStateEncoder.AppendCards | src/environment/public_safe_state.cpp:470-491 | cards are appended in locator order, or a length error is reported exactly when a field does not fit |
| SafeStateEncoder.AppendRelationships | src/environment/public_safe_state.cpp:493-507 | relationships are appended in the one order of the canonical form: by code, under one code by source bytes, under one source by target bytes (`SafeStateOrder.CanonicalIffInOrder` says this without the comparator) |
| SafeStateEncoder.AppendTargets | src/environment/public_safe_state.cpp:509-517 | targets are appended in byte order |
| SafeStateEncoder.AppendEvents | src/environment/public_safe_state.cpp:551-562 | events are appended in index order |
| SafeStateEncoder.AppendContext | src/environment/public_safe_state.cpp:564-589 | the match context with its two sorted decks is appended |
| SafeStateEncoder.EncodeView | src/environment/public_safe_state.cpp:591-604 | a valid state is encoded to the layout of its normal form exactly when everything fits 32 bits |
| SafeStateBoundary.AdjacentLocators | src/environment/public_safe_state.cpp:300-318 | comparing neighbours of the sorted copy finds a repeated locator exactly when there is one |
| SafeStateBoundary.ValidateObservation | src/environment/public_safe_state.cpp:286-375 | validation accepts exactly the observations whose state meets the raw demand |
| SafeStateBoundary.CanonicalSafeStateBytes | src/environment/public_safe_state.cpp:1371-1408 | canonical bytes, an argument error or a length error, each exactly when due; which bytes those are is `SafeStateLayout.ObservationIsSpelled` |
| SafeStateBoundary.DecodeCanonicalSafeState | src/environment/public_safe_state.cpp:1410-1437 | the decoder with its final comparison is the parser alone: the comparison never decides anything |
| SafeStateBoundary.ObservationRoundTrip | src/environment/public_safe_state.cpp:286-375 | decoding the bytes of a valid observation gives its public state in normal form exactly when its locators are UTF-8, and nothing otherwise |
| SafeStateBoundary.RefusedObservation | src/environment/public_safe_state.cpp:286-375 | a valid observation with one locator that is not UTF-8 encodes, and its bytes do not decode |
| SafeStateBoundary.BytesShowContentOnly | src/environment/public_safe_state.cpp:1371-1408 | two encodable observations have the same bytes exactly when they show the same content up to the order of the sorted collections |
| SafeStateCodec.DecodeIffCanonical | src/environment/public_safe_state.cpp:1134-1367 | a byte string decodes to a state exactly when the state is in canonical order and the bytes are its layout |
| SafeStateCodec.ReencodeIsIdentity | src/environment/public_safe_state.cpp:1427-1431 | encoding a decoded state gives the input back, so the comparison with it cannot fail |
| SafeStateCodec.DecodeOfEncode | src/environment/public_safe_state.cpp:1410-1437 | every encodable state comes back as its normal form, or not at all when a locator is not UTF-8 |
| SafeStateCodec.UnreadableIsLost | src/environment/public_safe_state.cpp:1410-1437 | a state that can be encoded and is not decoded from its bytes |
| SafeStateCodec.SameBytesIffSameNormalForm | src/environment/public_safe_state.cpp:591-604 | equal bytes and equal normal forms are the same thing |
| SafeStateContent.SameBytesIffSameContent | src/environment/public_safe_state.cpp:591-604 | equal bytes mean equal scalar fields and equal multisets in every sorted collection, and conversely |
| SafeStateOrder.LexLessIsBefore | src/environment/public_safe_state.cpp:411-418 | byte order is decided by the first difference, or by the end of the shorter string |
| SafeStateOrder.CanonicalIffInOrder | src/environment/public_safe_state.cpp:451-579 | a state is canonical exactly when it is encodable and in order: zones by their six fields, cards by locator, relationships by code, source and target, counters by type and count, markers by code, decks by passcode, targets by bytes, events by index, each said by first differences |
| SafeStateOrder.DecodeIffInOrder | src/environment/public_safe_state.cpp:1410-1437 | bytes decode to a state exactly when it is encodable, in that order, and they are its layout |
| SafeStateOrder.NormalFormIsOrderedContent | src/environment/public_safe_state.cpp:451-604 | the normal form of an encodable state is the only state in that order with its content |
| SafeStateOrder.BytesAreOrderedContent | src/environment/public_safe_state.cpp:1371-1408 | the bytes of an observation are the layout of the state in that order that shows what the observation shows, field by field |
| SafeStateOrder.DecodedShowsObservation | src/environment/public_safe_state.cpp:1410-1437 | what decodes from them is in that order and shows what the observation shows |
| SafeStateOrder.ZoneCodesArePlaces | src/environment/public_safe_state.cpp:121-147 | a zone's code is its place in the list of zones, and no other code is read |
| SafeStateOrder.MarkerCodesArePlaces | src/environment/public_safe_state.cpp:165-185 | the same for link markers |
| SafeStateOrder.KindCodesArePlaces | src/environment/public_safe_state.cpp:187-197 | the same for relationship kinds |
| SafeStateOrder.EventCodesArePlaces | src/environment/public_safe_state.cpp:199-249 | the same for visible events |
| SafeStateOrder.PositionsAreBits | src/environment/public_safe_state.cpp:149-163 | positions are the four low bits, defence two above attack and face down one above face up |
| FieldLists.OneSpelling | src/environment/public_safe_state.cpp:44-67 | a list of fields (a number of a width, most significant byte first, or a text after its length) has one spelling |
| SafeStateLayout.DecodeIffSpelled | src/environment/public_safe_state.cpp:1134-1367 | bytes decode to a state exactly when it is canonical and they spell its fields one after another: which number or text stands where, how wide, and what marks it missing |
| SafeStateLayout.ObservationIsSpelled | src/environment/public_safe_state.cpp:1371-1408 | the bytes of an observation spell the fields of the state in canonical order that shows what it shows |
| PublicObservation.ObservationSound | src/environment/public_environment_observation_decoder.cpp:137-211 | a container is read only from its own layout, with a canonical safe state for the same perspective |
| PublicObservation.ObservationComplete | src/environment/public_environment_observation_decoder.cpp:137-211 | the layout of every admissible container is read back |
| PublicObservationCodec.ValidateInput | src/environment/public_environment_observation.cpp:33-58 | the nested duplicate loop and the field checks accept exactly the valid inputs |
| PublicObservationCodec.CanonicalObservationBytes | src/environment/public_environment_observation.cpp:114-143 | bytes of the container with sorted references, or the right error |
| PublicObservationCodec.ProjectPublicObservation | src/environment/public_environment_observation.cpp:97-112 | the container value with the canonical state bytes and the public context, exactly when the state encodes and the context is valid |
| PublicObservationCodec.ProjectionShowsPublicPartOnly | src/environment/public_environment_observation.cpp:97-112 | two observations are projected to one value exactly when their public parts agree: identifiers, step metadata and hashes leave no trace |
| PublicObservationCodec.ReadReferences | src/environment/public_environment_observation_decoder.cpp:182-198 | references are read exactly when they are locators in strictly ascending order |
| PublicObservationCodec.DecodeCanonicalObservation | src/environment/public_environment_observation_decoder.cpp:137-211 | the decoder with its final re-encoding is the parser alone |
| PublicObservationCodec.ObservationIffCanonical | src/environment/public_environment_observation_decoder.cpp:137-211 | container bytes decode to an observation exactly when it is admissible and they are its layout |
| PublicObservationCodec.ReencodedObservation | src/environment/public_environment_observation_decoder.cpp:199-207 | re-encoding a decoded observation gives the input back |
| PublicObservationCodec.ContainerRoundTrip | src/environment/public_environment_observation.cpp:114-143 | an encoded container comes back, with its references sorted, exactly when the references are UTF-8 and the state bytes are canonical for the same perspective |
| PublicObservationCodec.SameContainerBytes | src/environment/public_environment_observation.cpp:114-143 | equal container bytes mean equal inputs up to the order of references, and conversely |
| PublicObservationCodec.ProjectedBytesShowPublicPartOnly | src/environment/public_environment_observation.cpp:97-112 | two observations project to the same bytes exactly when their public parts agree up to the order of references |
| PublicObservationCodec.ProjectedRoundTrip | src/environment/public_environment_observation.cpp:97-143 | the projected bytes of an observation decode exactly when its locators are UTF-8, and then the state inside is its public state in normal form |
| PublicLayouts.ObservationIffSpelled | src/environment/public_environment_observation_decoder.cpp:137-211 | container bytes decode to an observation exactly when it is admissible and they spell its fields in order |
| PublicAction.ChoiceLaws | src/environment/public_action_identity.cpp:70-84 | a choice is read exactly when kind, value and response selector fit together |
| PublicAction.ActionSound | src/environment/public_action_identity.cpp:259-352 | bytes are read as an action only when they are its layout, in either version |
| PublicAction.ActionComplete | src/environment/public_action_identity.cpp:409-511 | the layout of every admissible action is read back |
| PublicActionKeys.LowerHexInjective | src/environment/public_action_identity.cpp:398-405 | hexadecimal text determines its bytes |
| PublicActionKeys.WriteLowerHex | src/environment/public_action_identity.cpp:398-405 | the nibble loop writes the hexadecimal text |
| PublicActionKeys.DecodeLowerHex | src/environment/public_action_identity.cpp:126-158 | decoding succeeds exactly on the text of some non-empty bytes and returns them |
| PublicActionKeys.CanonicalActionBytes | src/environment/public_action_identity.cpp:409-511 | an action encodes exactly when it is admissible, to its layout, in either version |
| PublicActionKeys.IsCanonicalActionBytes | src/environment/public_action_identity.cpp:259-352 | the separately written recogniser accepts exactly what the functional reader consumes whole |
| PublicActionKeys.RecognisedIffEncoded | src/environment/public_action_identity.cpp:259-352 | bytes are recognised exactly when some admissible action encodes to them |
| PublicActionKeys.PublicActionKey | src/environment/public_action_identity.cpp:445-447 | the key is the prefix and the text of the canonical bytes, or nothing for an inadmissible action |
| PublicActionKeys.IsPublicActionKey | src/environment/public_action_identity.cpp:449-457 | a string is accepted as a key exactly when some admissible action has it |
| PublicActionKeys.KeysAreUnique | src/environment/public_action_identity.cpp:445-511 | one key, one action: neither the version nor any field can be confused |
| PublicLayouts.ActionIffSpelled | src/environment/public_action_identity.cpp:409-511 | bytes are the canonical action's exactly when it is admissible and they spell its fields in order, the operation in the second version only |
| PublicLayouts.ActionCodesArePlaces | include/ygo/environment/public_action_identity.hpp:45-64 | choice, reference and operation codes are places in lists, choices counted from one |
| PublicLayouts.HexIsDigits | src/environment/public_action_identity.cpp:398-405 | a byte is written as two digits of 0 to f, the high one first |
| PublicActionDomain.ValidKeys | src/environment/public_action_identity.cpp:522-531 | the loops accept exactly lists of distinct public keys |
| PublicActionDomain.CanonicalDomainBytes | src/environment/public_action_identity.cpp:513-580 | domain bytes exactly for a token and a non-empty list of distinct public keys |
| PublicActionDomain.DomainBytesAreInjective | src/environment/public_action_identity.cpp:513-580 | domain bytes determine version, request kind and the ordered key list |
| PublicActionDomain.CanonicalDecisionBytes | src/environment/public_action_identity.cpp:589-641 | decision-identity bytes exactly for valid identities |
| PublicActionDomain.DecisionBytesAreInjective | src/environment/public_action_identity.cpp:589-641 | decision-identity bytes determine every field |
| PublicLayouts.DomainIffSpelled | src/environment/public_action_identity.cpp:513-580 | domain bytes are exactly the spelling of schema name, request kind and keys in order |
| PublicLayouts.DecisionIffSpelled | src/environment/public_action_identity.cpp:589-641 | decision bytes are exactly the spelling of schema name, twice, episode, index, player, kind and both digests |
| PublicActionDomain.ResolvesOnce | src/environment/public_action_identity.cpp:645-696 | among valid, pairwise distinct bindings a public key resolves to the internal key bound to it and to no other |
| PublicActionDomain.ResolvePublicActionKey | src/environment/public_action_identity.cpp:645-696 | the resolver answers exactly when every binding is valid, no two agree, and one has the key |
| EpisodeDriver.ValidateCandidateSet | src/protocol/message_decoder.cpp:1295-1332 | a candidate set is complete exactly when it is non-empty, well formed and without repeated semantic keys; otherwise the first defect is a repeated key exactly when every candidate up to the repetition is well formed |
| EpisodeDriver.FindCandidate | src/protocol/message_decoder.cpp:1334-1345 | the candidate with a semantic key is found when there is one |
| EpisodeDriver.Driver.constructor | src/environment/episode_driver.cpp:188-241 | a new driver is advancing with an empty trace and nothing counted |
| EpisodeDriver.Driver.CloseWithFailure | src/environment/episode_driver.cpp:302-318 | whatever was under way, a failure leaves a closed driver with one failure record and an unchanged trace |
| EpisodeDriver.Driver.PublishCurrentRequest | src/environment/episode_driver.cpp:341-407 | a decision is published only while the action count is below its budget and the candidate set is complete; a throw leaves the lifecycle alone |
| EpisodeDriver.Driver.AppendTerminal | src/environment/episode_driver.cpp:444-477 | a terminal step is the last of the trace, carries the next index and counts no action |
| EpisodeDriver.Driver.ProcessOnce | src/environment/episode_driver.cpp:496-561 | one engine call is counted before its answer is known, also when it throws; a boundary is the one that answer gives, and none means a quiet answer |
| EpisodeDriver.Driver.AdvanceUntilBoundary | src/environment/episode_driver.cpp:479-565 | the boundary is the one the engine's last reply gives after any number of quiet ones: a finished game has that terminal message's winner and reason and the two observations built, a decision the one decoded request and the observation published, a failure the reason of the retry or exception; or a budget ran out |
| EpisodeDriver.Driver.ReachTerminal | src/environment/episode_driver.cpp:444-477 | a terminal message gives the boundary with its winner and reason and the observations the engine built, or the failure that building them threw |
| EpisodeDriver.Driver.OpenDecision | src/environment/episode_driver.cpp:519-539 | decoded decisions give the boundary of the single request with its published observation, an unsupported-protocol failure unless there is exactly one, or the exhausted action budget |
| EpisodeDriver.OneAnswer | src/environment/episode_driver.cpp:496-561 | one reply gives one boundary |
| EpisodeDriver.TerminalAnswers | src/environment/episode_driver.cpp:510-515 | conversely a terminal message gives the boundary with its winner and reason and what was built, or the thrown reason |
| EpisodeDriver.DecisionAnswers | src/environment/episode_driver.cpp:516-539 | conversely decoded decisions give the failure, the exhausted budget or what opening the single one gives |
| EpisodeDriver.FailureAnswers | src/environment/episode_driver.cpp:496-561 | conversely a failed call gives the failure of its reason |
| EpisodeDriver.Driver.SubmitResponse | src/core/core_host.cpp:207-214 | a response the engine took is recorded as submitted, also when submitting throws afterwards |
| EpisodeDriver.Driver.RecordFinal | src/environment/episode_driver.cpp:662-714 | a final step is recorded with the hash of the response that is then submitted, and a failed submission closes the driver |
| EpisodeDriver.Driver.RecordIntermediate | src/environment/episode_driver.cpp:640-661 | an intermediate step counts one action, submits nothing and either opens the next decision or exhausts the budget |
| EpisodeDriver.Driver.ApplySemanticKey | src/environment/episode_driver.cpp:567-726 | applying a key keeps the invariant: trace indices 0,1,2,..., action count equal to intermediate plus final steps and within its budget; it throws exactly when the driver awaits no decision or the key is not offered, and then changes nothing |
| EpisodeDriver.Driver.SubmitAndAdvance | src/environment/episode_driver.cpp:662-714 | the submitted response is the chosen candidate's or the continuation's, once |
| EpisodeDriver.Driver.Interrupt | src/environment/episode_driver.cpp:728-743 | an interrupt is taken exactly while a decision is awaited and leaves trace and counts alone |
| EpisodicEnvironment.DecisionIdsIdentify | src/environment/episodic_environment.cpp:1382-1407 | up to collisions of the digest on what the two frames hash, equal decision identifiers mean the same episode, index, player, kind, keys and, up to the order of references, observation |
| EpisodicEnvironment.TokenKeepsCoupling | src/environment/episodic_environment.cpp:1415-1426 | stamping the token changes nothing that digests, bindings or the pending request depend on |
| EpisodicEnvironment.ProjectCandidates | src/environment/episodic_environment.cpp:995-1088 | each frame candidate shows the public action of the request's candidate at its own position under the key of that action, is bound to that candidate's semantic key and submits exactly when it does; or the first refusal in order |
| EpisodicEnvironment.ProjectFrame | src/environment/episodic_environment.cpp:1302-1413 | a frame shows the request's kind, player, step and candidates and the boundary's observation, carries digests of its own contents and is aligned with its bindings; it is refused for the first reason that holds, and only then |
| EpisodicEnvironment.Environment.Close | src/environment/episodic_environment.cpp:1429-1457 | every closure clears driver, frame and bindings and leaves exactly one record |
| EpisodicEnvironment.Environment.ReachTerminal | src/environment/episodic_environment.cpp:1221-1300 | the terminal record has the boundary's winner and reason and the episode its public views of both observations; a missing or inconsistent observation fails at teardown, one that cannot be projected at projection |
| EpisodicEnvironment.Environment.IssueFrame | src/environment/episodic_environment.cpp:1415-1427 | the frame goes out under the next generation, never spent before, and the driver awaits that very decision |
| EpisodicEnvironment.Environment.ConsumeBoundary | src/environment/episodic_environment.cpp:1459-1538 | each boundary leads to the reply of its kind with the boundary's contents and a state that agrees with it; a boundary error leaves the closing to the caller |
| EpisodicEnvironment.Environment.Reset | src/environment/episodic_environment.cpp:1540-1610 | a reset is rejected for the first reason that holds, leaving everything as it was, or starts an episode in a valid state and replies with what the driver's first boundary gives |
| EpisodicEnvironment.Environment.ResolveChosen | src/environment/episodic_environment.cpp:1628-1660 | the internal key is that of the pending request's candidate at the position of the chosen public key |
| EpisodicEnvironment.Environment.OpenCandidate | src/environment/episodic_environment.cpp:1628-1660 | while a decision is open, the candidate at a public key's position is the one whose public action has that key |
| EpisodicEnvironment.Environment.Step | src/environment/episodic_environment.cpp:1612-1688 | a step is rejected for the first reason that holds, leaving everything as it was, or spends its token once, applies the internal candidate whose own public description has the chosen key, and replies with what the driver's next boundary gives |
| EpisodicEnvironment.Environment.Interrupt | src/environment/episodic_environment.cpp:1690-1711 | an interrupt is rejected with the state unchanged, or closes the episode with the administrative record; the failure reply the code allows for never arises |
| EpisodicEnvironment.Environment.PerspectiveTerminalView | src/environment/episodic_environment.cpp:1783-1790 | the terminal view of the player asked for, exactly when the game ended and the player is 0 or 1 |
| EpisodeRuns.Perform | src/environment/episodic_environment.cpp:1540-1711 | one call of any kind keeps the facade valid and its tokens in order |
| EpisodeRuns.AnyRun | src/environment/episodic_environment.cpp:1540-1711 | over every sequence of calls: generations ascend without gap across episodes, decision indices of an episode count from 0, and no token is accepted twice |
| PolicyRng.DigestWords | src/policy/rng.cpp:68-81 | the four words are the big-endian quarters of the digest |
| PolicyRng.BlocksDiffer | src/policy/rng.cpp:155-167 | blocks of different indices have different bytes |
| PublicLayouts.BlockIffSpelled | src/policy/rng.cpp:155-167 | block bytes are exactly the spelling of domain, identity and index |
| PolicyRng.ThresholdIsRemainder | src/policy/rng.cpp:247 | the unsigned expression for the threshold is 2^64 mod n |
| PolicyRng.SamplerIsUniform | src/policy/rng.cpp:237-261 | for every bound each residue has the same, positive number of accepted words |
| PolicyRng.Sha256CounterRng.NextRawU64 | src/policy/rng.cpp:215-235 | a word is the lane of its block at the cursor, which moves by one; an exhausted cursor stays |
| PolicyRng.Sha256CounterRng.UniformBelow | src/policy/rng.cpp:237-261 | the result is the first accepted word's residue, the cursor one past it, and every word in between was rejected |
| PolicyRng.RandomLegalPolicy.Select | src/policy/random_legal.cpp:42-94 | a selection is one of the distinct public keys, or the right error, and the stored generator moves on only when it draws |
| PolicyRng.EveryCandidateEquallyLikely | src/policy/random_legal.cpp:68-86 | every candidate is chosen by the same number of accepted words |
| Sha256.LengthIsExact | src/core/rules_bundle.cpp:44-58 | below 2^61 bytes the length field is the exact bit count |
| Sha256.PaddingIsShortest | src/core/rules_bundle.cpp:44-58 | the padding is the shortest that section 5.1.1 of FIPS 180-4 allows |
| Sha256.Transform | src/core/rules_bundle.cpp:70-121 | the working-variable loop is the compression of section 6.2.2 of FIPS 180-4 |
| Sha256.Hasher.Update | src/core/rules_bundle.cpp:25-38 | absorbing more bytes appends them to the message, however they are split |
| Sha256.Hasher.Finish | src/core/rules_bundle.cpp:40-63 | the digest is that of the whole message |
| Sha256.HashChunks | src/core/rules_bundle.cpp:134-143 | hashing a file chunk by chunk hashes its contents |
| Sha256Meaning.WordIsBigEndian | src/core/rules_bundle.cpp:84-89 | a block is sixteen words, most significant byte first (section 5.2.1 of FIPS 180-4) |
| Sha256Meaning.DigestInOrder | src/core/rules_bundle.cpp:52-63 | the digest is the eight words in order, most significant byte first |
| Sha256Meaning.NumbersAreWords | src/core/rules_bundle.cpp:90-103 | the functions of section 4.1.2 on numbers are the operations on 32-bit words |
| WordBits.ChosenBits | src/core/rules_bundle.cpp:99-102 | choosing takes each bit from the second or third word as the first says; the majority is what two agree on |
| WordBits.BigMixedBit0 | src/core/rules_bundle.cpp:101 | each bit is the parity of the three bits 2, 13 and 22 places up |
| WordBits.BigMixedBit1 | src/core/rules_bundle.cpp:98 | the same with 6, 11 and 25 |
| WordBits.SmallMixedBit0 | src/core/rules_bundle.cpp:91 | the same with 7, 18 and 3, where the shift brings nothing to the three high places |
| WordBits.SmallMixedBit1 | src/core/rules_bundle.cpp:92 | the same with 17, 19 and 10, where the shift brings nothing to the ten high places |
| Sha256Meaning.InitialWordsAreRoots | src/core/rules_bundle.cpp:20-23 | the initial words are the fractions of square roots of the first eight primes |
| Sha256Meaning.ConstantsAreRoots | src/core/rules_bundle.cpp:70-82 | the constants are the fractions of cube roots of the first sixty-four primes, in order |
| Sha256Meaning.AddIsModular | src/core/rules_bundle.cpp:93-103 | sums wrap at 2^32 |
| Sha256Meaning.WordsAddedInPlace | src/core/rules_bundle.cpp:112-119 | the eight words are added place by place |
| CardVocabulary.ValidatePasscodes | src/model/card_vocabulary.cpp:32-45 | a list is accepted exactly when it is strictly ascending and without zero |
| CardVocabulary.IdForPublicPasscode | src/model/card_vocabulary.cpp:70-82 | the binary search gives rank plus two, and nothing for an unlisted passcode or an id that does not fit |
| CardVocabulary.IdsAndPasscodes | src/model/card_vocabulary.cpp:70-82 | ids and passcodes name each other |
| CardVocabulary.IdsAscend | src/model/card_vocabulary.cpp:70-82 | ids keep the order of passcodes and stay clear of the reserved ones |
| CardVocabulary.VocabularyBytesAreInjective | src/model/card_vocabulary.cpp:84-97 | the bytes behind the identity determine the list |
| PublicLayouts.VocabularyIffSpelled | src/model/card_vocabulary.cpp:84-97 | vocabulary bytes are exactly the spelling of schema name, twice, mapping rule and passcodes |
| LocatorTables.TableHolds | src/model/logical_model_input.cpp:156-203 | the table is strictly ascending and holds exactly the strings collected |
| LocatorTables.SameStringsSameTable | src/model/logical_model_input.cpp:197-202 | the strings alone determine the table |
| LocatorTables.MakeTable | src/model/logical_model_input.cpp:197-202 | sorting and erasing neighbours that repeat builds it |
| LocatorTables.Ordinal | src/model/logical_model_input.cpp:124-138 | the search gives the ordinal of a string exactly when the table has it |
| LogicalProjection.CopyIsPlain | src/model/logical_model_input.cpp:424-503 | without its ordinals the copied state is the state |
| LogicalProjection.CopiedStateRewrites | src/model/encoded_model_input.cpp:1030-1149 | for every decodable byte string and every table, the copy of the decoded state meets what the second writer asks, and the second writer's layout of it is those bytes |
| LogicalProjection.WrittenIsPlain | src/model/encoded_model_input.cpp:1030-1149 | in a decoded state none of the second writer's sorts changes anything |
| LogicalStateWriter.WriteTexts | src/model/encoded_model_input.cpp:1089-1095 | sorting records by their locator writes the sorted locators, whatever else the records hold |
| LogicalStateWriter.WriteCard | src/model/encoded_model_input.cpp:1054-1067 | a card is written with markers and counters as they come |
| LogicalStateWriter.WriteLogicalSafeState | src/model/encoded_model_input.cpp:1030-1149 | the second writer writes the layout of the state with every collection but markers and counters sorted, sizes cut to 32 bits, or fails exactly when a text is longer |
| LogicalProjectionRun.CollectMentioned | src/model/logical_model_input.cpp:156-195 | every locator of references, state and candidates is collected, or none when one is not text |
| LogicalProjectionRun.CurrentEntityOrdinal | src/model/logical_model_input.cpp:205-223 | the entity of a locator is found; the failure is exactly two entities with one locator |
| LogicalProjectionRun.CopyPublicState | src/model/logical_model_input.cpp:424-503 | the copying loops build the copy |
| LogicalProjectionRun.CopyCandidates | src/model/logical_model_input.cpp:530-578 | candidates are copied exactly when no public key repeats |
| LogicalProjectionRun.ValidateCandidate | src/model/logical_model_input.cpp:333-377 | a candidate is refused for the first of its checks that fails |
| LogicalProjectionRun.ProjectLogicalModelInput | src/model/logical_model_input.cpp:609-662 | the projection, or the first thing wrong with observation, candidates or domain; its lookups never fail; what the projection holds is `ProjectionMeaning.ProjectionShows` |
| ProjectionMeaning.ProjectionShows | src/model/logical_model_input.cpp:424-578 | a projection holds the observation's perspective, index, kind and player, its references up to order, its decoded state field by field, digests of container and domain, and the candidates in order with key, action and whether they submit; every reference names its locator and the card it stands for |
| ProjectionMeaning.ProjectionPlaces | src/model/logical_model_input.cpp:156-203 | its table lists every locator mentioned once in byte order, and every reference stands at its place |
| ProjectionMeaning.OneStateShown | src/model/logical_model_input.cpp:424-503 | a logical state shows one public state |
| ProjectionMeaning.ProjectionIsInjective | src/model/logical_model_input.cpp:609-662 | two projections are equal exactly when observations are equal up to reference order and candidate lists are equal |
| LogicalProjectionValidity.AllCovered | src/model/logical_model_input.cpp:156-203 | every locator the input mentions has a place in the table, and every entry is text |
| LogicalProjectionValidity.StateCopied | src/model/logical_model_input.cpp:424-503 | the copy of a decoded state passes the encoder's state validation |
| LogicalProjectionValidity.CandidateCopied | src/model/logical_model_input.cpp:540-567 | an accepted candidate passes the encoder's candidate validation under its own key |
| LogicalProjectionValidity.ProjectedIsValid | src/model/encoded_model_input.cpp:752-982 | the encoder's validation accepts a projected input exactly when the candidates fit 32 bits and the request kind is one of the fourteen it knows |
| LogicalProjectionValidity.UnknownKindIsRefused | src/model/encoded_model_input.cpp:770-774 | an observation with a request kind outside the fourteen is projected and refused by the encoder |
| ModelInputEncoder.EncodesIffNamed | src/model/encoded_model_input.cpp:1247-1379 | a valid input encodes exactly when every identity it shows has a passcode the vocabulary lists |
| ModelInputEncoder.FaultIsFirst | src/model/encoded_model_input.cpp:1281-1306 | otherwise the missing-passcode error is reported exactly when the first unnamed entity has none |
| ModelInputEncoder.EncodingUndone | src/model/encoded_model_input.cpp:1247-1379 | the vocabulary and the encoded input give the logical input back, field for field |
| ModelInputEncoder.EncodingIsInjective | src/model/encoded_model_input.cpp:1247-1379 | under one vocabulary two valid inputs with one encoding are one input |
| EncodingMeaning.EncodingMeans | src/model/encoded_model_input.cpp:1247-1379 | an encoding means its input: codes are places in lists, passcodes are named by the vocabulary, ordinals denote the locators, and every other field stands as it is |
| EncodingMeaning.EncodedObservationMeans | src/model/encoded_model_input.cpp:1247-1379 | so the encoding of a projected observation means a logical input that shows the observation and its candidates |
| EncodingMeaning.EncodedObservationsDiffer | src/model/encoded_model_input.cpp:1247-1379 | two observations have one encoding exactly when they and their candidates are the same up to reference order |
| ModelInputEncoder.EntityUndone | src/model/encoded_model_input.cpp:1281-1306 | an encoded entity gives back the card, its locator and its identity |
| ModelInputEncoder.DeckUndone | src/model/encoded_model_input.cpp:1349-1357 | encoded decks give back the passcodes |
| ModelInputValidity.EntitiesStayValid | src/model/encoded_model_input.cpp:1508-1529 | encoded entities still ascend by locator |
| ModelInputValidity.RefStaysValid | src/model/encoded_model_input.cpp:1404-1414 | a current reference that named an entity by locator names it by ordinal |
| ModelInputValidity.DeckStaysValid | src/model/encoded_model_input.cpp:1562-1574 | ranks keep decks sorted |
| ModelInputValidity.CandidateStaysValid | src/model/encoded_model_input.cpp:1416-1455 | an encoded candidate stands for the same public action, so its routing key stays its own |
| ModelInputValidity.EncodingIsValid | src/model/encoded_model_input.cpp:1457-1629 | whatever a valid input encodes to satisfies everything the post-validation asks |
| ModelInputEncoding.ValidateLogical | src/model/encoded_model_input.cpp:752-982 | the loops accept exactly the valid logical inputs |
| ModelInputChecks.LogicalStateIsOk | src/model/encoded_model_input.cpp:793-912 | the checks of a logical state, collection by collection, accept exactly what the validity predicate does |
| ModelInputEncoding.EncodeUnchecked | src/model/encoded_model_input.cpp:1247-1379 | the pushing loops compute the encoding, stopping at the first failure |
| ModelInputEncoding.ValidateEncoded | src/model/encoded_model_input.cpp:1457-1629 | the loops accept exactly the valid encoded inputs |
| ModelInputChecks.StateIsOk | src/model/encoded_model_input.cpp:1493-1574 | the same for an encoded state |
| ModelInputEncoding.EncodeModelInput | src/model/encoded_model_input.cpp:1827-1869 | encoded exactly when the input is valid, the vocabulary ascending and every identity named; the invalid-encoded error never occurs |
| EncodedState.StateUndone | src/phase6/bc_candidate_scorer.cpp:117-162 | replacing references and putting them back gives the state back |
| EncodedState.RefsMapped | src/phase6/bc_candidate_scorer.cpp:77-108 | replacing references commutes with collecting them |
| CandidateScorer.CompactDenotes | src/phase6/bc_candidate_scorer.cpp:57-163 | compacting the table keeps the string every reference denotes |
| CandidateScorer.StateInputIgnoresCandidates | src/phase6/bc_candidate_scorer.cpp:57-163 | two encoded inputs give one state input exactly when their headers agree and their states denote the same strings |
| CandidateScorer.StateInputFromEncoded | src/phase6/bc_candidate_scorer.cpp:57-163 | pushing, sorting, erasing and rewriting ordinals in place computes the compacted state; no lookup fails |
| CandidateScorer.CandidateRefKeepsString | src/phase6/bc_candidate_scorer.cpp:216-240 | a candidate reference placed in either table denotes the string it denoted |
| CandidateScorer.CandidateIsPlaced | src/phase6/bc_candidate_scorer.cpp:216-240 | every reference of a valid candidate has a place, and one outside the state's table has no current entity: the failure for one that has is unreachable |
| CandidateScorer.CandidateOnlyLocators | src/phase6/bc_candidate_scorer.cpp:188-214 | the second table is exactly the candidates' strings the state does not have |
| CandidateScorer.SelectBest | src/phase6/bc_candidate_scorer.cpp:276-298 | the selected candidate scores highest and has the least key among equals; a wrong number of scores or a score that is no number is refused |
| CandidateScorer.SelectionIgnoresOrder | src/phase6/bc_candidate_scorer.cpp:276-298 | the selected key and score do not depend on the order of candidates |
| CandidateScorer.SelectionIsOrderFree | src/phase6/bc_candidate_scorer.cpp:349-429 | nor does the key a scorer selects for the whole input |
| CandidateScorer.ScoreEncodedModelInput | src/phase6/bc_candidate_scorer.cpp:349-429 | scores every candidate and selects the best, or reports the first failure: invalid input, width, missing callback, refusing callback, score that is no number; what each callback is given is `ScorerMeaning.InferenceIsMeant` |
| ScorerMeaning.StateInputMeans | src/phase6/bc_candidate_scorer.cpp:57-163 | the state input has the header and the state field by field, its table listing exactly the state's own locators in byte order |
| ScorerMeaning.CandidateInputMeans | src/phase6/bc_candidate_scorer.cpp:242-274 | a candidate's input has its eight plain fields, and source and target stand for the string, kind and entity of its own source and target, each present exactly when it is |
| ScorerMeaning.AlikeIsSameAction | src/phase6/bc_candidate_scorer.cpp:242-274 | candidates given to the scorer alike under the same tables are the same public action |
| ScorerMeaning.InferenceIsMeant | src/phase6/bc_candidate_scorer.cpp:349-429 | the score of each candidate is what the callback answers on an input that means it, and the selection is the best of those |
| ModelPipeline.StatesDenoteTheSame | src/phase6/bc_candidate_scorer.cpp:57-163 | two tables that have the state's strings give encodings that denote one state |
| ModelPipeline.ScorerSeesObservationOnly | src/phase6/bc_candidate_scorer.cpp:57-163 | whatever candidates an observation comes with, projection, encoding and compaction end in the same state input |
| BatchColumns.CheckedProduct | src/model/model_batch_layout.cpp:36-44 | the product is returned exactly when the size type holds it |
| BatchColumns.MaxCollectionLength | src/model/model_batch_layout.cpp:55-67 | the longest row; too few offsets or descending ones are refused |
| BatchColumns.RunIsRow | src/model/model_batch_layout.cpp:143-150 | every run laid in a flat array is found again between its two offsets |
| BatchColumns.ColumnIsRows | src/model/model_batch_layout.cpp:69-82 | a valid column is its rows laid one after another |
| BatchColumns.WideEnough | src/model/model_batch_layout.cpp:357-362 | a width is enough for every row exactly when it is not below the longest |
| BatchColumns.FillPadded | src/model/model_batch_layout.cpp:331-355 | the rectangle of rows, padding and marks, or overflow; a capacity failure exactly when a row is too long |
| BatchColumns.BlockIsInjective | src/model/model_batch_layout.cpp:331-355 | a rectangle with its mask determines its rows, even rows of padding values |
| BatchColumns.CollectRow | src/model/model_batch_layout.cpp:260-278 | the row's marked cells, or the error of the first cell that is wrong |
| BatchColumns.CollectPadded | src/model/model_batch_layout.cpp:246-279 | the rows of a rectangle, or the first of overflow, wrong size and wrong cell; its offset checks never fail |
| BatchColumns.FaultlessBlock | src/model/model_batch_layout.cpp:246-279 | nothing is wrong with a rectangle exactly when rows fill it |
| BatchColumns.PaddingUndone | src/model/model_batch_layout.cpp:245-355 | unpadding undoes padding of a column |
| BatchColumns.UnpaddingUndone | src/model/model_batch_layout.cpp:245-355 | padding undoes unpadding of an accepted rectangle |
| RaggedBatches.BatchedSampleIsItself | src/model/model_batch_layout.cpp:138-191 | the sample reconstructed at an index is the sample batched there, field for field |
| RaggedBatches.BatchedIsValid | src/model/model_batch_layout.cpp:193-243 | every batch of valid samples passes the layout validation: thirteen offset arrays monotone from 0 to the flat length |
| RaggedBatches.BatchIsItsSamples | src/model/model_batch_layout.cpp:138-243 | a valid batch is the batch of its samples |
| BatchMeaning.BatchShowsSamples | src/model/model_batch_layout.cpp:487-574 | in a batch the row of every collection at a sample is that sample's collection, under its own header, and presence marks are its candidates' own |
| RaggedBatchRun.ValidateRagged | src/model/model_batch_layout.cpp:193-243 | the validation accepts exactly the valid batches and of any other reports the first check that fails |
| RaggedBatchRun.MakeRaggedBatch | src/model/model_batch_layout.cpp:487-574 | the batch of the samples, or the first reason against it in sample order: an empty list, too many samples, an invalid sample, a count that does not fit |
| PaddedBatches.PaddingIsRecognised | src/model/model_batch_layout.cpp:281-328 | each padding test accepts exactly the row that padding writes |
| PaddedBatches.PadUndone | src/model/model_batch_layout.cpp:586-823 | unpadding a padded batch gives the ragged batch back |
| PaddedBatches.UnpadUndone | src/model/model_batch_layout.cpp:713-823 | padding an accepted batch's unpadded form at its own widths gives it back |
| BatchMeaning.PaddingShowsSamples | src/model/model_batch_layout.cpp:586-711 | in a padded batch the cells of a row are the sample's elements, marked, and then padding, unmarked |
| BatchMeaning.WidthsAreChosen | src/model/model_batch_layout.cpp:357-362 | each width is the one asked for, or the length of the longest such collection of the samples |
| BatchMeaning.PaddedAsAsked | src/model/model_batch_layout.cpp:586-711 | so a batch that pads shows its samples at the widths asked for |
| PaddedBatchRun.ChooseWidths | src/model/model_batch_layout.cpp:357-362 | each width is the one asked for or the longest row, refused when too small |
| PaddedBatchRun.FillBlocks | src/model/model_batch_layout.cpp:628-700 | after the widths are chosen the inner capacity check is never the reason to fail |
| PaddedBatchRun.PadBatch | src/model/model_batch_layout.cpp:586-711 | the padded batch, or the first reason against it: an invalid batch, a width too small, a size that does not fit |
| PaddedBatchRun.UnpadBatch | src/model/model_batch_layout.cpp:713-823 | unpadding accepts exactly the valid padded batches, gives what padding undoes, and of any other reports the first check that fails |
| PaddedBatches.FaultlessPadded | src/model/model_batch_layout.cpp:713-823 | no check fails exactly for the padded batches that rows fill and whose unpadded form is valid |
| PaddedBatchRun.BatchedSampleSurvives | src/model/model_batch_layout.cpp:138-823 | a sample survives batching, padding, unpadding and reconstruction |
| BatchPipeline.AcceptedPairsKeys | src/model/encoded_model_input.cpp:1457-1473 | the encoder's own validation accepts only samples with a routing key for each candidate, which is all that batching asks of it |
| BatchPipeline.EncodedInputsSurvive | src/model/model_batch_layout.cpp:487-823 | outputs of the encoder batch validly, pad, unpad, and each gives its logical input back |
| EventStreams.ProjectionOfMore | src/observation/event_projection.cpp:153-515 | projection is a homomorphism: a whole stream followed by another gives the events of both, in order |
| EventStreams.NumberedParts | src/observation/event_projection.cpp:163-172 | the indices of the second part carry on from the first, wrapping at 2^64 |
| EventMessages.HiddenIsNotShown | src/observation/event_projection.cpp:105-137 | codes of cards not face up, codes in shuffles, descriptions of links not face up, cards drawn or confirmed to the other player, and sequence and position of concealed cards play no part in what a player is shown |
| EventMessages.ConcealedIsBlank | src/observation/event_projection.cpp:124-137 | when no zone of concealed cards hangs on the sequence and position 0 is face down, nothing but player and place number is left of a concealed face-down card by that blanking |
| EventMeaning.ShownIsTold | src/observation/event_projection.cpp:180-512 | the events of a message are exactly those the message tells this player, family by family: kind, player, zones, amounts, which card it shows and where |
| EventMeaning.ProjectionIsTold | src/observation/event_projection.cpp:153-515 | the events of a stream are exactly those its messages tell, in order, and there are none exactly when it is malformed |
| EventMeaning.ConcealedIsNotShown | src/observation/event_projection.cpp:124-137 | outside a confirmation to the player, every entity and target shown is the place of a card of the message that is neither in a main deck, nor in the other player's hand, nor face down in the other player's extra deck |
| EventWire.BodyIsSpelled | src/observation/event_projection.cpp:180-512 | a body is read as a message exactly when it spells that message, little-endian, with nothing left over |
| EventWire.FrameIsSpelled | src/observation/event_projection.cpp:139-178 | a frame is taken exactly when its length, not 0, stands before it and it is complete |
| EventMessages.TurnedCodeShown | src/observation/event_projection.cpp:303-337 | a position change shows the code exactly when either face is up; it shows what another event of a single located card shows exactly when neither is, or the new face is, the code is not 0 and the controller is not 2 |
| EventMessages.TurnedCodeFails | src/observation/event_projection.cpp:303-321 | inputs where it differs: code 0, controller 2, a card just turned face-down |
| EventStreams.HiddenLeavesNoTrace | src/observation/event_projection.cpp:153-515 | streams that differ only in those show a player the same events |
| EventReader.Reader.U32 | src/observation/event_projection.cpp:40-48 | the reader takes the little-endian value or fails on truncation |
| EventReader.Reader.U64 | src/observation/event_projection.cpp:49-56 | the same for eight bytes |
| EventReader.TooMany | src/observation/event_projection.cpp:262-264 | a count beyond the remaining bytes belongs to no message, so the guard refuses nothing real |
| EventReader.ReadConfirm | src/observation/event_projection.cpp:366-406 | the payload size alone decides the entry shape, and any other size is refused |
| EventReader.ReadShuffleSet | src/observation/event_projection.cpp:210-256 | both location vectors are checked and none of it is shown but the player |
| EventReader.ReadMessage | src/observation/event_projection.cpp:180-512 | the reader over one frame computes the message exactly, with nothing left over |
| EventReader.ProjectVisibleEvents | src/observation/event_projection.cpp:153-515 | the loop gives the numbered events of the whole stream, or nothing when any frame is malformed; what the events tell is `EventMeaning.ProjectionIsTold` |
| EventReader.ObservationSession.Ingest | src/observation/observation_session.cpp:14-22 | a stream is taken in whole or not at all, and the i-th event since the last clear has index i |
| EventReader.ObservationSession.Clear | src/observation/observation_session.cpp:24-27 | clearing starts the numbering again |
| EventReader.IngestedTogether | src/observation/observation_session.cpp:14-22 | two streams taken in at one step leave what taking them in as one would |

## Left out

- The rules engine, scripts, card data, deck files, certified resources and identity strings: outside this model; `Reset` takes what they answer as arguments.
- Message decoding, continuation construction and observation building: replaced by an engine oracle whose answers are arbitrary.
- Field-by-field coupling checks between a request and its observation, and the choice of public fields for a candidate: a `Projector` argument with arbitrary answers.
- JSON serialisation, the trajectory codec, receipts, manifests, audit probes, timing and diagnostics text, and every metric but the counts named in the table.
- The canonical byte writers of logical and encoded model inputs other than the safe-state writer, and the identity built on them: they have no reader.
- A score is a real or no number; a callback's own exception and its refusal are one answer.
- CandidateScorer.ScoreEncodedModelInput: a text of 2^32 bytes or more, on which the code's validation throws a length error, is not modelled.
- Allocation failure, and any claim that SHA-256 has no collisions: as an identity it is an opaque function to 64 lower-case hexadecimal digits.
- Enumeration values outside the declared ones cannot be represented, so the branches that refuse them are not modelled; enumeration order is taken to agree with the byte codes.
- The library sort is any method that returns a sorted permutation; bit operations of the codecs are modelled as arithmetic on bounded integers.
- The action encoder's several argument exceptions are one failure, and its two versions one function with a version argument.
- Checks of one record without a loop of its own, in both model inputs, are expressions.
- EpisodeDriver.Driver.SubmitResponse: merges the host's submission into the driver, because only whether the engine took the response matters there.
- LogicalStateWriter.WriteLogicalSafeState: asks for distinct entity locators and event indices, because with repeated ones the library sort may return several arrangements.
- RaggedBatchRun.MakeRaggedBatch: takes the encoded-input layer's acceptance as a parameter; `BatchPipeline` gives it the encoder's own.
- EventReader.ReadMessage: takes message numbers, zone numbers, face-up and reason bits and the text of a locator as parameters, because the engine header that fixes them is not part of this model.
- EventReader.ReadLife: negating the least 32-bit amount gives itself here, where the original is undefined.
- PolicyRng.Sha256CounterRng.NextRawU64: an exception while hashing is not modelled.
