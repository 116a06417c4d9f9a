# Competios contract verification

A Dafny model of the Competios game-provider contract and of its access-token library, with proofs about
every input and every run.

Five pieces are modelled, each by the module or modules named:

- The staged source-artifact port (`SourceProvider`, `SourceRuns`, `PublicationHistory`, `SourceRetries`,
  `SourceAnswers`, `SourceScenarios`, `SourceExamples`): the reference provider with its eight maps and one
  command ledger, as a class whose four operations refine one `Step` function, and theorems over every sequence of
  calls. `SourceOperations`, `CanonicalPath` and `DigestFraming` hold the checks and digests it relies on.
- The execution lifecycle (`Placements`, `Execution`, `ExecutionForms`, `Completion`, `EventSink`, `Launches`,
  `ExecutionAnswers`): placement ranking, profiles, the binding of a result to the frozen request, which requests
  can be completed, the event sink's runs, and the launch ledger in front of it.
- Tournament topology (`FormatStages`, `FormatChecker`, `FormatFacts`, `Knockout`): the counting format checker and
  the fixed-knockout generator.
- Operation grants and access tokens (`OperationGrants`, `GrantAuthority`, `JsonText`, `AccessTokens`,
  `ReplayStores`, `Verification`, `TokenAnswers`): grant shapes, claims, what JSON does to their texts, issuing,
  verifying, and the two replay stores.
- `Primitives`, `ContractTypes`, `TextForms` and `Combinatorics` hold Go's integer widths, the records, the
  constrained texts and the counting arguments.

Each operation is specified twice. Its method equals one step of a state machine built from the contract's own
checks, and the results about runs follow from that step. The modules named `...Answers`, `...Forms`, `...Facts`
and `...Authority` decide the same answers from the fields of grant, request, token or format and from the calls
accepted before, without those checks, and prove both the same.

## Conventions

- A Go string and a Go byte slice are a `string` whose characters stand for bytes. Widths are explicit:
  `uint8`, `uint16` and `uint64` are subset types, and every conversion that may truncate is written out.
  Ordinals and limits the format checker only compares are natural numbers.
- A payload is its record with its own digest cleared. A verified grant is its claims.
- SHA-256, the JSON encoding of records under a digest (which may fail), the space check and the
  public-reference URL check are the fields of one `Library` value and are never interpreted, so every
  statement holds for any of them. Where two digests must differ, the absence of that one collision is a stated
  hypothesis. UTF-8 (section 4 of RFC 3629) is spelled out.
- A signed token is a sealed envelope: header type, key ID, algorithm, the secret it was sealed with, claims.
  Key ID and claims pass through JSON, which keeps UTF-8 texts and turns every other byte into U+FFFD
  (`JsonText.Reread`). A verification reads one clock for the time window; the store reads its own.
- `path.Clean` follows its documented rules.
- A Go map lookup that would miss during a replay is the outcome `BlankReplay`, and a panic is the outcome
  `Panicked`; both are proved unreachable from the empty provider.
- The provider's fixtures (plan contents, artifact digest, stamped times, expected routes) are parameters;
  `SetupValid` says what the shipped constants satisfy, and that a plan always has a JSON encoding.

## Where code and expectation part

- Publication compares receipts, not transfer digests. A retention accepted between disclosure and
  publication replaces the retained record under the same receipt ID, and the publication still passes
  exactly when provider, adapter, participant, version, plan and plan digest are unchanged
  (`PublicationHistory.ReplacedRetentionStillPublishes`). So the record held at the publication is the disclosed
  one exactly when no retention came in between (`PublicationHistory.PublishedRecord`), and after any run five
  accepted calls publish a record of other files than the disclosed ones whenever a second retention transfers
  such files (`SourceScenarios.ReplacedRecordIsPublished`, `SourceExamples.PublicationOfReplacedRecord`).
- An exact retry of an accepted retention or disclosure is refused as an invalid grant, not replayed, once the
  plan it is checked against names another source: a later plan under the one plan ID does that to a retention,
  a later retention under that plan to a disclosure (`SourceRetries.RetryAnswer`, `RetentionSourceExactly`,
  `DisclosureSourceExactly`). A plan and a retention for another commit of the same version turn both away
  (`SourceScenarios.TwoCommitsChain`, `SourceExamples.RetriesOfOlderCommit`).
- Identities and routes may hold bytes that are not UTF-8; the transport check passes them, a token does not
  carry them. From event to accepted grant everything works exactly when the direction's issuer, subject and
  audience, the event's identities, the resource and the content type are UTF-8 and the key is found under its
  reread ID (`Verification.EventGrantChain`); the resource of a
  slash and a byte 0xFF is refused at the end (`Verification.StrayByteLosesEvent`).
- A launch request's ID need only be non-empty, but the launch receipt writes it into a safe reference that
  allows a narrower alphabet and 256 characters. For any other ID the receipt fails the contract's check and
  the execution can never accept an event (`Launches.LaunchReceiptValidity`, `Launches.UnfitLaunchIsDeaf`), as for
  the ID of a single space (`Launches.SpaceLaunchIsDeaf`).
- With a positive leeway the sweeping replay store forgets a token that is still inside its window, so a
  token can be verified twice; over one clock, each token is verified at most once exactly when the leeway is
  zero (`Verification.EachTokenOnceExactlyWithoutLeeway`). With separate clock readings it can happen without a
  leeway (`Verification.SecondClockReadingVerifiesTwice`): with readings at most a skew apart, leeway plus skew
  must not be positive (`Verification.EachTokenOnceExactlyWithin`). The durable store has no such condition
  (`Verification.VerifiedAtMostOnce`).
- A scheduled request of more than 65536 slots is valid, and can never be completed
  (`Completion.CompletableExactly`, `Completion.UncompletableRequest`).
- Whole-second times turn a clock within the first second after Go's zero time into the zero time, which
  makes the decoded grant invalid (`AccessTokens.FirstSecondIsLost`).
- The conversion of index+1 to sixteen bits wraps only at position 65535, where it gives rank 0, which is
  refused (`Placements.NewRankIsPosition`). Scheduled ordinals are compared modulo 2^16; an accepted result
  still has at most 65536 placements (`Execution.CompletedEventIsAPermutation`).

## Model

| member | source | states |
|---|---|---|
| `SourceProvider.ReferenceSourceProvider.constructor` | backend/contract4competiostest/source_conformance_test.go:42-53 | all eight maps start empty |
| `SourceProvider.ReferenceSourceProvider.ClaimCommand` | backend/contract4competiostest/source_conformance_test.go:55-68 | the ledger's three answers (new, replay, conflict), the collision flag's overwrite of a plan command by a disclosure, and the exact ledger afterwards |
| `SourceProvider.ReferenceSourceProvider.PlanManifestClosure` | backend/contract4competiostest/source_conformance_test.go:70-93 | new state and answer are those of one step of the state machine the run results are about |
| `SourceProvider.ReferenceSourceProvider.ValidateAndRetainCandidate` | backend/contract4competiostest/source_conformance_test.go:95-122 | as above; the loop-computed transfer digest is the one stored |
| `SourceProvider.ReferenceSourceProvider.PublishArtifact` | backend/contract4competiostest/source_conformance_test.go:124-163 | as above, with the ledger asked before the prerequisites and again after them |
| `SourceProvider.ReferenceSourceProvider.VerifyArtifactDisclosure` | backend/contract4competiostest/source_conformance_test.go:165-195 | as above, with the verdict taken against the stored transfer digest |
| `SourceRuns.PlansAreMade` | backend/contract4competiostest/source_conformance.go:669-686 | for every valid manifest request the provider's plan is built (no panic) and its receipt passes the plan receipt check |
| `SourceRuns.LedgerIsDisjointUnion` | backend/contract4competiostest/source_conformance_test.go:28-40 | when the ledger agrees with the receipt maps, their four domains are pairwise disjoint and their union is the ledger's domain |
| `SourceRuns.LedgerAt` | backend/contract4competiostest/source_conformance_test.go:55-68 | each ledger purpose names exactly the map that holds the command |
| `SourceRuns.DisclosureIDsGrow` | backend/contract4competiostest/source_conformance_test.go:181-194 | the ID index of disclosures stays the command index under the injective ID text |
| `SourceRuns.PerformKeepsLedger` | backend/contract4competiostest/source_conformance_test.go:70-195 | each stage, performed under a new command, keeps purposes, digests and the ID index in agreement with the maps |
| `SourceRuns.StepFacts` | backend/contract4competiostest/source_conformance_test.go:70-195 | a call performs its stage under a new command or changes none of the eight maps; no replay misses its receipt, no branch panics |
| `SourceRuns.ReachableLedger` | backend/contract4competiostest/source_conformance_test.go:55-195 | in every reachable state purposes, digests, the four maps and the disclosure ID index agree |
| `SourceRuns.ReachablePartition` | backend/contract4competiostest/source_conformance_test.go:28-40 | in every reachable state the four receipt maps partition the ledger |
| `SourceRuns.RunStep` | backend/contract4competiostest/source_conformance_test.go:70-195 | step k of any run: accepted means admitted, prepared and performed; anything else leaves the state as it was; the panic at line 150 is unreachable |
| `SourceRuns.CommandKept` | backend/contract4competiostest/source_conformance_test.go:55-68 | what is stored under a known command is never changed by later calls |
| `SourceRuns.LedgerDecides` | backend/contract4competiostest/source_conformance_test.go:70-195 | after an acceptance, later admitted calls under the command change nothing: the exact retry gets the first receipt with only its status changed, any other stage or payload is a conflict |
| `SourceRuns.AcceptedAtMostOnce` | backend/contract4competiostest/source_conformance_test.go:55-68 | no command is accepted twice in a run |
| `SourceRuns.OnlyAcceptedCallsMatter` | backend/contract4competiostest/source_conformance_test.go:70-195 | a run and the same run without its rejected and replayed calls end in the same state, and the shorter run is accepted throughout |
| `PublicationHistory.AcceptedReceiptsAreValid` | backend/contract4competios/source_operations.go:241-527 | in every run the receipt of an accepted call passes the contract's own receipt check for that request, for all four stages |
| `PublicationHistory.StepEffects` | backend/contract4competiostest/source_conformance_test.go:70-195 | one step of a run, seen through the plan, retention, disclosure and publication maps |
| `PublicationHistory.PlanStoredBy` | backend/contract4competiostest/source_conformance_test.go:91-91 | a stored plan comes from the last accepted plan call |
| `PublicationHistory.RetainedStoredBy` | backend/contract4competiostest/source_conformance_test.go:119-120 | a retained record comes from the last accepted retention under its receipt ID, which later ones overwrite |
| `PublicationHistory.DisclosureStoredBy` | backend/contract4competiostest/source_conformance_test.go:191-193 | a stored disclosure comes from an accepted disclosure call |
| `PublicationHistory.PublicationStoredBy` | backend/contract4competiostest/source_conformance_test.go:161-161 | a stored publication comes from an accepted publication call |
| `PublicationHistory.RetentionFacts` | backend/contract4competios/source_operations.go:364-389 | an admitted retention names the plan's provider, adapter, participant, version, plan and plan digest, and its files have the requested digest |
| `PublicationHistory.DisclosureFacts` | backend/contract4competios/disclosure_operations.go:96-101 | an admitted disclosure names the retained plan and artifact, and its files have the requested public digest |
| `PublicationHistory.PreparationFacts` | backend/contract4competios/disclosure_operations.go:136-148 | a publication passing its prerequisites names a stored, matched disclosure of the same version and artifact |
| `PublicationHistory.DisclosureChain` | backend/contract4competiostest/source_conformance_test.go:165-195 | every accepted disclosure is about the last accepted retention under its receipt ID, with the same source binding, and is matched exactly when both transfers have the same digest |
| `PublicationHistory.PublicationChain` | backend/contract4competiostest/source_conformance_test.go:70-195 | every stored publication is preceded by an accepted plan, then retention, then disclosure; the disclosed transfer digest is the one stored at that moment; all name the same provider, adapter, participant, version, plan, plan digest and artifact digest |
| `PublicationHistory.PublishedFilesWereRetained` | backend/contract4competios/disclosure_operations.go:136-148 | short of a SHA-256 collision, the files disclosed for a publication are the retained files in the same order |
| `PublicationHistory.RetainedKept` | backend/contract4competiostest/source_conformance_test.go:119-120 | a retained record is unchanged while no retention under its receipt ID is accepted |
| `PublicationHistory.RetainedSameExactly` | backend/contract4competiostest/source_conformance_test.go:119-120 | a retained record is the same at two moments of a run exactly when no retention under its receipt ID is accepted in between |
| `PublicationHistory.HeldLater` | backend/contract4competiostest/source_conformance_test.go:119-120 | for a disclosure and a later step: the record then held is that of the last retention, is the disclosed one exactly when that is the disclosed retention, and has its transfer digest exactly when both transferred files of one digest |
| `PublicationHistory.PublishedRecord` | backend/contract4competiostest/source_conformance_test.go:124-163 | for every stored publication: the record held when it was accepted is the disclosed one exactly when no retention under its receipt ID came after the disclosure, and has the disclosed transfer digest exactly when the last retention transferred such files |
| `PublicationHistory.ReplacedRetentionStillPublishes` | backend/contract4competios/disclosure_operations.go:140-148 | in any run, a retention accepted while a publication is prepared withdraws the preparation exactly when it names another provider, adapter, participant, version, plan or plan digest; its files are not compared |
| `SourceScenarios.NewCommandAccepted` | backend/contract4competiostest/source_conformance_test.go:70-195 | in any run an admitted, prepared call under a new command is accepted |
| `SourceScenarios.HonestRetentionAdmitted` | backend/contract4competiostest/source_conformance.go:702-718 | the retention request a client builds from a plan, for files that keep to it, is admitted |
| `SourceScenarios.HonestDisclosureAdmitted` | backend/contract4competiostest/source_conformance.go:737-754 | the disclosure request built from plan and retention receipt, for files that keep to the plan, is admitted |
| `SourceScenarios.HonestPublicationPrepared` | backend/contract4competiostest/source_conformance.go:720-735 | the publication request built from the retention and disclosure receipts passes the prerequisites |
| `SourceScenarios.HonestCallsAreAccepted` | backend/contract4competiostest/source_conformance_test.go:70-195 | after any run, honest plan, retain, disclose and publish calls under new commands are all accepted, the disclosure is matched and the publication stored |
| `SourceScenarios.ReplacedRecordIsPublished` | backend/contract4competiostest/source_conformance_test.go:95-163 | after any run of any sound provider, an honest plan, retention and disclosure, a second retention and the publication of what was disclosed are all accepted; the published record has another transfer digest than the disclosed one exactly when the two retentions do |
| `SourceExamples.PublicationOfReplacedRecord` | backend/contract4competiostest/source_conformance_test.go:95-163 | a provider and such a run in which the digests do differ |
| `SourceRetries.RetryAdmittedExactly` | backend/contract4competiostest/source_conformance_test.go:95-100 | in any run, an exact retry of an accepted retention or disclosure is still admitted exactly when the plan it is checked against still names the same source; plan and publish retries always are |
| `SourceRetries.RetryAnswer` | backend/contract4competiostest/source_conformance_test.go:70-195 | an exact retry of an accepted call changes nothing: it gets the first receipt as a replay in that case and is an invalid grant otherwise |
| `SourceRetries.UndisturbedSource` | backend/contract4competiostest/source_conformance_test.go:91-120 | only a plan accepted in between can turn a retention's retry away, and only a retention under the same receipt ID a disclosure's |
| `SourceRetries.RetentionSourceExactly` | backend/contract4competiostest/source_conformance_test.go:91-100 | over a run: a retention's source is unchanged exactly when the last plans accepted before it and before the retry name the same source |
| `SourceRetries.DisclosureSourceExactly` | backend/contract4competiostest/source_conformance_test.go:119-168 | over a run: a disclosure's source is unchanged exactly when the plans under the last retentions of its receipt ID, before it and before the retry, name the same source |
| `SourceRetries.OtherPlanTurnsRetryAway` | backend/contract4competiostest/source_conformance_test.go:95-100 | once the last plan is of another commit, every exact retry of an earlier retention is an invalid grant and changes nothing |
| `SourceRetries.OtherRetentionTurnsRetryAway` | backend/contract4competiostest/source_conformance_test.go:165-170 | once the last retention of the receipt ID is under a plan of another commit, every exact retry of an earlier disclosure is an invalid grant and changes nothing |
| `SourceScenarios.TwoCommitsChain` | backend/contract4competiostest/source_conformance_test.go:70-195 | in any run: when honest plan, retain and disclose calls are followed by honest plan and retain calls for another commit of the same version, all are accepted and every exact retry of the first retention and of the disclosure is turned away |
| `SourceExamples.RetriesOfOlderCommit` | backend/contract4competiostest/source_conformance_test.go:70-195 | the failing input: a provider and such a run of five calls |
| `PublicationHistory.DefectBreaksPartition` | backend/contract4competiostest/source_conformance_test.go:57-60 | with the collision flag on, a disclosure under a planned command puts it in two receipt maps and its plan can no longer be replayed |
| `SourceOperations.AscendingStep` | backend/contract4competios/source_operations.go:203-221 | comparing with the previous path alone decides whether all paths ascend, and ascending paths differ |
| `SourceOperations.ValidateClosurePlan` | backend/contract4competios/source_operations.go:203-221 | the loop accepts exactly the plans with a valid header, valid files, every path before every later one, and a matching digest |
| `SourceOperations.DigestCandidateTransferredFiles` | backend/contract4competios/source_operations.go:266-283 | the loop errs exactly on an empty list, a bad path or kind, or a repeated path, and otherwise returns the digest of count and triples |
| `SourceOperations.FilePartsInjective` | backend/contract4competios/source_operations.go:266-283 | the path, kind, bytes triples determine the file list |
| `SourceOperations.TransferDigestDetermines` | backend/contract4competios/source_operations.go:266-283 | short of a SHA-256 collision, equal transfer digests mean the same files in the same order |
| `SourceOperations.ValidateTransferAgainstPlan` | backend/contract4competios/source_operations.go:371-389 | in 64-bit arithmetic the loop decides by the mathematical sum of sizes: the total and the subtraction never wrap |
| `SourceOperations.FittingFilesAreDigestible` | backend/contract4competios/source_operations.go:371-389 | files that fit a valid plan have canonical, distinct paths, so the digest function cannot err |
| `SourceOperations.TransferAgainstValidPlan` | backend/contract4competios/source_operations.go:371-389 | against a valid plan, acceptance is exactly: same paths and regular kinds pointwise, each size within its file limit, sum within the aggregate limit, digest equal |
| `DigestFraming.BigEndianDecodes` | backend/contract4competios/contract.go:214-219 | reading back an eight-byte length gives the length |
| `DigestFraming.BigEndianEncodes` | backend/contract4competios/contract.go:214-219 | every byte string is the encoding of the number it reads as |
| `DigestFraming.WriteDigestPart` | backend/contract4competios/contract.go:214-219 | appends the length prefix and then the bytes to the hash input |
| `DigestFraming.DigestParts` | backend/contract4competios/contract.go:203-210 | the hashed stream is the preimage of domain and parts, and the result is a well-formed digest |
| `DigestFraming.ParseFrames` | backend/contract4competios/contract.go:203-219 | a decoder recovers the parts from the framed stream |
| `DigestFraming.FramesParse` | backend/contract4competios/contract.go:203-219 | a stream the decoder accepts is the framing of what it returned |
| `DigestFraming.ParseInvertsFrames` | backend/contract4competios/contract.go:203-219 | decoder and framing are inverse, both directions |
| `DigestFraming.PreimageDetermines` | backend/contract4competios/contract.go:203-219 | different domains or part lists never share a preimage |
| `DigestFraming.DigestDetermines` | backend/contract4competios/contract.go:203-210 | short of a SHA-256 collision, equal digests mean equal domain and parts |
| `Primitives.HexEncodeInjective` | backend/contract4competios/contract.go:203-210 | the hexadecimal text determines the hashed bytes |
| `Primitives.DigestText` | backend/contract4competios/contract.go:221-231 | the text of every SHA-256 sum passes the digest check |
| `CanonicalPath.SplitJoin` | backend/contract4competios/source_operations.go:552-562 | splitting at slashes recovers the joined segments |
| `CanonicalPath.JoinSplit` | backend/contract4competios/source_operations.go:552-562 | joining the segments gives back the path |
| `CanonicalPath.CleanFixedPointIsOrdinary` | backend/contract4competios/source_operations.go:552-562 | a relative fixed point of the cleaning rules has only ordinary segments |
| `CanonicalPath.OrdinaryIsCleanFixedPoint` | backend/contract4competios/source_operations.go:552-562 | ordinary segments are a fixed point of the cleaning rules and pass every prefix check |
| `CanonicalPath.CanonicalExactly` | backend/contract4competios/source_operations.go:552-562 | accepted paths are exactly those whose segments are non-empty and neither dot nor dot-dot, without backslash or control character |
| `CanonicalPath.CanonicalJoin` | backend/contract4competios/source_operations.go:552-562 | a joined path is canonical exactly when both pieces are |
| `Placements.SlotsBoundLength` | backend/contract4competios/contract.go:558-574 | distinct sixteen-bit slots allow at most 65536 placements |
| `Placements.NewRankIsPosition` | backend/contract4competios/contract.go:566-569 | the sixteen-bit conversion of index+1 never yields an accepted wrong rank |
| `Placements.TieStart` | backend/contract4competios/contract.go:566-569 | in a scanned list every rank is one plus the first position that holds it |
| `Placements.ScanIsExact` | backend/contract4competios/contract.go:558-574 | the one-pass conditions hold exactly for standard competition rankings in (rank, slot) order with distinct slots and entries, of any length |
| `Placements.ValidatePlacements` | backend/contract4competios/contract.go:558-574 | the loop with its seen maps accepts exactly those lists |
| `Placements.SlotsAreAPermutation` | backend/contract4competios/contract.go:558-574 | in an accepted list every slot below n is placed at exactly one position |
| `Placements.OrderedListsAgree` | backend/contract4competios/contract.go:566-569 | two ordered lists with the same elements are equal |
| `Placements.PlacementsAreCanonical` | backend/contract4competios/contract.go:558-574 | two accepted lists giving every slot the same rank, entry and status are the same list |
| `Execution.ProviderScanIsExact` | backend/contract4competios/contract.go:494-504 | the sixteen-bit ordinal comparison accepts only slot i at position i: distinctness stops the scan at 65536 |
| `Execution.ValidateProviderSlots` | backend/contract4competios/contract.go:494-504 | the loop accepts exactly those slot lists |
| `Execution.ClaimParticipants` | backend/contract4competios/contract.go:518-523 | the inner loop accepts exactly when no participant is empty or already seen |
| `Execution.ScheduledScanIsExact` | backend/contract4competios/contract.go:505-524 | for scheduled slots the ordinals agree only modulo 2^16, and entries and participants are distinct over all slots |
| `Execution.ValidateScheduledSlots` | backend/contract4competios/contract.go:505-524 | the nested loops accept exactly those slot lists |
| `Execution.ValidateExecutionProfile` | backend/contract4competios/contract.go:488-529 | the method accepts exactly the valid profiles of either kind, and no unknown kind |
| `Execution.BindResult` | backend/contract4competios/contract.go:581-632 | the result loop accepts exactly when lengths agree, each placement names its own slot's entry, and the evidence fits the profile |
| `Execution.RequestEntriesDistinct` | backend/contract4competios/contract.go:488-529 | the frozen entries are distinct and at least one |
| `Execution.CompletedEventIsAPermutation` | backend/contract4competios/contract.go:581-632 | an accepted completed event places every frozen slot exactly once with its own entry, entries agree as multisets, and n is at most 65536 for both profile kinds |
| `Execution.CompletedArtifactsInSlotOrder` | backend/contract4competios/contract.go:581-632 | the recorded artifact at a placement's slot is the frozen artifact of the slot with that ordinal and entry |
| `Completion.TiedPlacementsAreValid` | backend/contract4competios/contract.go:558-574 | the list that gives every entry the first rank in slot order is accepted and bound to its slots, up to 65536 entries |
| `Completion.CompletedEventIsValid` | backend/contract4competios/contract.go:581-632 | for a valid request and receipt with at most 65536 slots, the event in which everybody ties is accepted, when that event has a JSON encoding |
| `Completion.OversizedIsNeverCompleted` | backend/contract4competios/contract.go:558-632 | for a valid request and receipt with more slots, no completed event is ever accepted, whatever the encoder |
| `Completion.CompletableExactly` | backend/contract4competios/contract.go:558-632 | some completed event is accepted for a valid request and receipt exactly when the request freezes at most 65536 slots, asking an encoding only of that one event |
| `Completion.EveryLengthIsRequestable` | backend/contract4competios/contract.go:467-529 | a request of any number of slots is valid and has a valid receipt, when the encoder encodes it |
| `Completion.UncompletableRequest` | backend/contract4competios/contract.go:467-529 | the failing input: a valid request of 65537 slots with a valid receipt, which no event completes |
| `EventSink.JourneyEventSink.constructor` | backend/contract4competiostest/journey_conformance.go:105-110 | the sink starts accepted and without events |
| `EventSink.JourneyEventSink.SubmitExecutionEvent` | backend/contract4competiostest/journey_conformance.go:112-128 | new state and answer are those of one step of the sink's state machine |
| `EventSink.TransitionTable` | backend/contract4competios/contract.go:743-760 | the six permitted transitions and no other |
| `EventSink.LifecycleGrows` | backend/contract4competios/contract.go:743-760 | a lifecycle extended by an event is a lifecycle exactly when the table permits it from the lifecycle's state |
| `EventSink.RunsAreLifecycles` | backend/contract4competiostest/journey_conformance.go:112-143 | in every run the accepted kinds form one of seven lifecycles, the state is the image of the last, and at most two events are stored |
| `EventSink.LifecyclesAreAccepted` | backend/contract4competiostest/journey_conformance.go:112-128 | authorised events under distinct commands are all accepted exactly when their kinds form a lifecycle |
| `EventSink.OnlyAcceptedOnesMatter` | backend/contract4competiostest/journey_conformance.go:112-128 | rejected and replayed submissions leave no trace in the final state |
| `EventSink.AcceptedEventReplaysForever` | backend/contract4competiostest/journey_conformance.go:116-121 | an accepted event resubmitted under any valid grant is replayed forever, also after a terminal state; another payload is a conflict forever |
| `Launches.ReferenceProvider.LaunchExecution` | backend/contract4competiostest/conformance_test.go:24-49 | new ledger and answer are those of one launch step |
| `Launches.LaunchedCommandDecides` | backend/contract4competiostest/conformance_test.go:34-41 | in every run a launched command is replayed with its first receipt or is a conflict, and never relaunched |
| `Launches.LaunchReceiptValidity` | backend/contract4competios/contract.go:254-271 | the receipt of an accepted launch passes the contract's receipt check exactly when the request ID fits in a safe reference, which request validation does not demand |
| `Launches.UnfitLaunchIsDeaf` | backend/contract4competios/contract.go:581-584 | for any other launched ID the event sink refuses every submission of every run |
| `Launches.SpaceLaunchIsDeaf` | backend/contract4competiostest/conformance_test.go:42-48 | the failing input: a launch under the request ID of one space is accepted, and its receipt fails the contract's check |
| `Launches.AcceptedResultPlacesEverySlot` | backend/contract4competiostest/journey_conformance.go:112-128 | a completed event accepted in any run finds the execution started and places every frozen slot exactly once |
| `FormatStages.PlaceKeyInjective` | backend/contract4competios/capabilities.go:223-259 | the colon-joined keys of target and source are unambiguous even when a stage ID contains colons |
| `FormatStages.EdgeMembers` | backend/contract4competios/capabilities.go:223-259 | the visited edges are exactly the listed destinations with their stages |
| `FormatStages.SlotNumbersDistinct` | backend/contract4competios/capabilities.go:223-259 | distinct targets inside a stage have distinct numbers below its slot count |
| `FormatStages.CountExactlyWhenFed` | backend/contract4competios/capabilities.go:260-266 | with distinct targets inside the stage, the right incoming count and every slot being fed are the same thing |
| `FormatChecker.VisitDecides` | backend/contract4competios/capabilities.go:223-259 | one more destination keeps the visited ones sound exactly when it leads on and both its keys are new |
| `FormatChecker.IndexStages` | backend/contract4competios/capabilities.go:203-219 | the first loop accepts exactly well-shaped stages with distinct IDs and builds their index |
| `FormatChecker.VisitDestinations` | backend/contract4competios/capabilities.go:223-259 | the nested loop accepts exactly when every destination goes forward into an existing slot and no target or source qualifier repeats |
| `FormatChecker.CountDecidesFed` | backend/contract4competios/capabilities.go:260-266 | for an accepted edge set, the incoming count of a stage is right exactly when all its slots are fed |
| `FormatChecker.ValidateFormatStages` | backend/contract4competios/capabilities.go:203-268 | the whole counting checker accepts exactly the formats in which destinations are a bijection onto the later slots, from distinct qualifiers, in stage order |
| `FormatChecker.SlotFedExactlyOnce` | backend/contract4competios/capabilities.go:203-268 | every slot after the first stage is the target of exactly one destination, from an earlier stage |
| `FormatChecker.SlotsAndQualifiersPairUp` | backend/contract4competios/capabilities.go:247-257 | two destinations of an accepted format share a target slot exactly when they share a source qualifier |
| `FormatChecker.TraceToFirstStage` | backend/contract4competios/capabilities.go:203-268 | every slot is reached from the first stage by a chain of destinations with strictly increasing stage indexes |
| `Knockout.FixedKnockoutStages` | backend/contract4competios/capabilities.go:126-166 | for one to eight rounds no eight- or sixteen-bit step wraps: the loops build the unbounded construction, it is a valid format, and the capacity is 2^rounds; otherwise nothing |
| `Knockout.WinnersOfRound` | backend/contract4competios/capabilities.go:145-160 | the inner loop lists each contest's winner in order |
| `Knockout.KnockoutIsValid` | backend/contract4competios/capabilities.go:126-166 | for every number of rounds the construction passes the format checker |
| `Knockout.KnockoutContestTotal` | backend/contract4competios/capabilities.go:126-166 | 2^r participants play 2^r - 1 contests |
| `Knockout.HalvedDivides` | backend/contract4competios/capabilities.go:158-160 | k halvings are division by 2^k |
| `Knockout.FollowHalves` | backend/contract4competios/capabilities.go:145-160 | following k destinations from first-round contest c reaches contest c / 2^k |
| `Knockout.WinnersMeetOnce` | backend/contract4competios/capabilities.go:145-160 | the winners of two first-round contests share contests from exactly one round on and enter the first shared one in opposite slots |
| `OperationGrants.AssembledGrantValidity` | backend/contract4competios/operation_grants.go:212-235 | when a grant built around a request is valid, for any issuer, key, token and clock |
| `OperationGrants.RequestValidExactlyWhenGrantable` | backend/contract4competios/operation_grants.go:192-235 | a request is accepted exactly when some valid grant has it as its requested operation |
| `OperationGrants.RelabelledGrantValidity` | backend/contract4competios/operation_grants.go:153-190 | a valid grant moved to another purpose and its scope is valid exactly within the pair of event purposes |
| `OperationGrants.NoEventAcceptsBothLabels` | backend/contract4competios/operation_grants.go:334-354 | for that pair no event accepts both labels, whatever the routes |
| `JsonText.SurvivesExactly` | grants/issuer.go:77-83 | a text comes back from JSON as it was exactly when it is UTF-8 |
| `JsonText.RereadIsValid` | grants/issuer.go:77-83 | what comes back from JSON is always UTF-8 |
| `AccessTokens.RequestRereadExactly` | grants/claims.go:129-175 | a request comes back as itself exactly when each of its texts survives |
| `AccessTokens.RereadKeepsRequestValid` | grants/claims.go:129-175 | rereading changes none of the texts the grant checks constrain, so a valid request stays valid |
| `AccessTokens.ClaimsRoundTrip` | grants/claims.go:78-182 | decoding the signed claims gives the grant in whole seconds (NumericDate, section 2 of RFC 7519) with its texts reread; it asks for the same operation exactly when each text survives; when the result is valid, exactly |
| `AccessTokens.ValidatePurposes` | grants/direction.go:119-131 | the loop accepts exactly a non-empty list of distinct known purposes |
| `AccessTokens.IssueSucceedsExactly` | grants/issuer.go:35-90 | issuing succeeds for exactly the permitted valid requests with a key ID, a token ID and a clock whose issue and expiry instants are not the zero time |
| `AccessTokens.IssuedGrantRoundTrip` | grants/issuer.go:42-83 | the decoded grant is valid exactly when its key has an ID and neither whole second is the zero time, and asks for the original request exactly when every text of the request survives JSON |
| `AccessTokens.FirstSecondIsLost` | grants/claims.go:177-182 | a clock half a second after the zero time issues a token whose decoded grant is refused |
| `ReplayStores.MemoryReplayStore.SweepLocked` | grants/replay_memory.go:52-58 | deleting while ranging in any order keeps exactly the unexpired entries |
| `ReplayStores.MemoryReplayStore.Seen` | grants/replay_memory.go:34-50 | sweep, then conflict or record |
| `ReplayStores.DurableReplayStore.Seen` | grants/replay_dalgo.go:58-76 | conflict or record, forgetting nothing |
| `ReplayStores.SeenByStore` | grants/replay.go:22-27 | the call through the interface is the sweeping or the never-forgetting step, by the store configured |
| `ReplayStores.StepAgrees` | grants/replay_memory.go:34-58 | one call: both stores answer alike and the sweeping one stays between the unexpired and all durable entries |
| `ReplayStores.MemoryCoversDurable` | grants/replay_memory.go:34-58 | after every run the memory holds part of the durable records and all unexpired ones |
| `ReplayStores.SweepingStoreForgetsSafely` | grants/replay.go:17-26 | under a non-decreasing clock, one expiry per token ID and expiries after the clock, every call is answered as by the store that never forgets, and only unexpired entries and the new one are held |
| `ReplayStores.TokenTakenOnce` | grants/replay.go:17-26 | under those conditions a token ID is taken once |
| `Verification.Verifier.VerifyOperationGrant` | grants/verifier.go:59-141 | over either store, with a clock reading for the window and one of the store's own: store and verdict are those of the check order (header type, key, seal, window, issuer and audience, claims, grant, purpose, replay) |
| `Verification.VerifyFacts` | grants/verifier.go:59-141 | a success is a valid grant of a permitted purpose inside its window under a trusted key, now recorded; a failure before the replay step leaves the store unchanged |
| `Verification.ImmediateReplayRefusedExactly` | grants/verifier.go:133-138 | a token presented again at once is refused, unless the store sweeps and its clock has reached the expiry |
| `Verification.VerifiedTokenHeld` | grants/replay_memory.go:34-58 | a verified token ID stays recorded: always in the store that never forgets, until its expiry in the sweeping one |
| `Verification.VerifiedAtMostOnce` | grants/verifier.go:59-141 | no token ID (section 4.1.7 of RFC 7519) is verified twice in any run: over the store that never forgets for any leeway, clocks and expiries; over the sweeping one when its clock advances, token IDs determine expiries and tokens reach it before theirs |
| `Verification.SharedClockStoresInTime` | grants/replay.go:17-20 | with zero leeway and one clock reading per verification, every checked token reaches the store before its expiry |
| `Verification.LateStoreVerifiesTwice` | grants/replay_memory.go:34-58 | the run that breaks the rule: an issued token presented twice inside its window while the sweeping store's clock has reached the expiry is verified twice |
| `Verification.SecondClockReadingVerifiesTwice` | grants/replay_memory.go:34-58 | with two clock readings that happens without a leeway: judged an instant before the expiry, stored at it |
| `Verification.LatePresentationVerifiesTwice` | grants/replay_memory.go:34-58 | when leeway and skew together are positive, the latest presentation inside the window reaches the sweeping store at the expiry or later and is verified twice |
| `Verification.EachTokenOnceExactlyWithin` | grants/verifier.go:59-141 | over the sweeping store and two clock readings at most a skew apart, each token is verified at most once in every run exactly when leeway plus skew is not positive |
| `Verification.EachTokenOnceExactlyWithoutLeeway` | grants/verifier.go:59-141 | over the sweeping store and one clock, each token is verified at most once in every run exactly when the direction's leeway is zero |
| `Verification.SurvivingKeyResolves` | grants/direction.go:107-117 | a key ID that survives JSON resolves to the signing key |
| `Verification.IssuedTokenVerifies` | grants/verifier.go:59-141 | an issued token is verified exactly when issuer and audience survive JSON, the reread key ID resolves to the sealing key, the clock is in its whole-second window and its ID is not held; the grant fits the original request exactly when every text of the request survives |
| `Verification.EventRequestAccepted` | backend/contract4competios/execution_event_transport.go:47-68 | a valid event and transport always yield a grant request |
| `Verification.EventRequestSurvivesExactly` | backend/contract4competios/execution_event_transport.go:47-68 | that request survives JSON exactly when the event's identities, the resource and the content type do |
| `Verification.EventGrantAccepted` | backend/contract4competios/operation_grants.go:284-344 | a grant is accepted for its event over the direction's route exactly when it asks for the event's own request and carries the direction's issuer, subject and audience |
| `Verification.EventGrantChain` | backend/contract4competios/operation_grants.go:334-344 | request, issue, verify, route and event check all succeed for a valid event and transport exactly when the direction's issuer, subject and audience, the event's identities, the resource and the content type survive JSON and the reread key ID resolves to the sealing key |
| `Verification.StrayByteLosesEvent` | backend/contract4competios/execution_transport.go:36-56 | the failing input: for the resource of a slash and a byte 0xFF the transport check passes, the grant is issued and verified, and the event is refused |
| `GrantAuthority.GrantExactly` | backend/contract4competios/operation_grants.go:153-190 | a grant is valid exactly when it is dated, its route facts serve its own purpose under that purpose's scope, command and digest are given, and it carries the fields of its purpose and no others |
| `GrantAuthority.PlanGrantExactly` | backend/contract4competios/operation_grants.go:302-308 | for a valid manifest request and a route, the check accepts one grant per key, token ID and window: every other field is the route's, the request's or empty |
| `GrantAuthority.RetainGrantExactly` | backend/contract4competios/operation_grants.go:310-316 | the same for a retention request |
| `GrantAuthority.PublishGrantExactly` | backend/contract4competios/operation_grants.go:318-324 | the same for a publication request |
| `GrantAuthority.DiscloseGrantExactly` | backend/contract4competios/operation_grants.go:326-332 | the same for a disclosure request |
| `GrantAuthority.LaunchGrantExactly` | backend/contract4competios/operation_grants.go:294-300 | the same for an execution request |
| `GrantAuthority.EventGrantExactly` | backend/contract4competios/operation_grants.go:334-354 | the same for an event, under the purpose and scope of its kind |
| `SourceOperations.FilePartsAt` | backend/contract4competios/source_operations.go:266-293 | parts 3i to 3i+2 are the path, entry kind and bytes of file i |
| `SourceOperations.TotalSizeAdds` | backend/contract4competios/source_operations.go:371-395 | the size of a transfer is the sum over its parts, of one file the number of its bytes |
| `SourceAnswers.ClosurePlanExactly` | backend/contract4competios/source_operations.go:203-239 | a plan is accepted exactly when its names and limits are given, each file's path precedes the next one's and it is sealed under its domain |
| `SourceAnswers.TransferExactly` | backend/contract4competios/source_operations.go:371-395 | against a plan the provider made, a transfer fits exactly when it keeps to the provider's files and total and the digest is that of its framed count, paths, kinds and bytes |
| `SourceAnswers.AdmittedExactly` | backend/contract4competiostest/source_conformance_test.go:70-195 | in every run a call passes the checks before the ledger exactly when its grant is the one for its request and the expected route, the request is sealed under its own domain, and every field repeats what the provider holds, listed field by field for the four stages |
| `SourceAnswers.PreparedExactly` | backend/contract4competios/disclosure_operations.go:140-148 | in every run a valid publication meets its prerequisites exactly when a stored retention and a stored matched disclosure of it agree with it in the listed fields |
| `SourceAnswers.KnownExactly` | backend/contract4competiostest/source_conformance_test.go:55-68 | the ledger knows a command exactly when an earlier call under it was accepted |
| `SourceAnswers.UnentitledAnswer` | backend/contract4competiostest/source_conformance_test.go:70-195 | in every run any call that is not so entitled, under a new or a known command, is an invalid grant and changes nothing |
| `SourceAnswers.RepeatedAnswer` | backend/contract4competiostest/source_conformance_test.go:70-195 | an entitled call under a known command changes nothing: the same stage and typed digest get the first receipt with the status of a replay, anything else is a conflict |
| `SourceAnswers.NewAnswer` | backend/contract4competiostest/source_conformance_test.go:70-195 | an entitled call under a new command is accepted with a first receipt; a publication exactly when it rests on stored records, otherwise it is an invalid grant |
| `SourceAnswers.AcceptedAnswer` | backend/contract4competiostest/source_conformance_test.go:85-194 | every field of the receipt of an accepted call, for the four stages |
| `SourceAnswers.AcceptedVerdict` | backend/contract4competiostest/source_conformance_test.go:179-187 | an accepted disclosure is matched exactly when it asks about the digest the last accepted retention under its receipt ID asked to retain |
| `PublicationHistory.DefectIsLimited` | backend/contract4competiostest/source_conformance_test.go:57-60 | the collision flag changes nothing but the answer to a disclosure under a command the ledger holds as a plan's |
| `TextForms.DigestForm` | backend/contract4competios/contract.go:221-231 | a digest is its prefix and 64 lower-case hexadecimal digits |
| `TextForms.ObjectIDForm` | backend/contract4competios/source_operations.go:576-593 | an object ID is sha1 and 40 digits or sha256 and 64 |
| `TextForms.SafeReferenceForm` | backend/contract4competios/contract.go:697-719 | a safe reference is its prefix and 1 to 256 letters, digits, hyphens, dots and underscores |
| `TextForms.ReplayReferenceForm` | backend/contract4competios/contract.go:697-719 | the same for a replay reference |
| `TextForms.CodeForm` | backend/contract4competios/contract.go:721-732 | a failure code is a lower-case letter and up to 63 lower-case letters, digits, hyphens and dots |
| `TextForms.TextLessExactly` | backend/contract4competios/source_operations.go:210-210 | one path precedes another exactly when after a common prefix it ends or has the smaller byte |
| `TextForms.HexDecodeEncode` | backend/contract4competios/contract.go:203-210 | reading a hexadecimal text back, high digit first, gives the bytes |
| `TextForms.HexEncodeDecode` | backend/contract4competios/contract.go:203-210 | and writing what was read gives the same digits |
| `TextForms.DigestRead` | backend/contract4competios/contract.go:203-219 | a digest text is its prefix and the digits of the sum of a stream that decodes to the domain and then the parts |
| `TextForms.DecimalDecodes` | backend/contract4competios/capabilities.go:134-160 | a decimal text reads back, most significant digit first, as its number, with no leading zero |
| `JsonText.RuneWidthExactly` | backend/contract4competios/contract.go:515-515 | a rune of a given width is at the front exactly when the text starts with the UTF-8 encoding of a scalar value of that width |
| `Placements.PlacementsExactly` | backend/contract4competios/contract.go:558-574 | a list is accepted exactly when each entry is named, has one of the four statuses, an existing slot and the rank one more than the number of better ones, and precedes every later placement by rank and then slot with another entry and slot |
| `ExecutionForms.ProfileExactly` | backend/contract4competios/contract.go:488-529 | the accepted profiles of both kinds, position by position; no participant twice in one slot or in two |
| `ExecutionForms.RequestExactly` | backend/contract4competios/contract.go:467-486 | the accepted requests: every name given, no artifact or the terminal replay, a fitting profile, sealed under its domain |
| `ExecutionForms.ReceiptExactly` | backend/contract4competios/contract.go:254-271 | the accepted receipts: the request's names, an instance, distinct safe references |
| `ExecutionForms.EvidenceExactly` | backend/contract4competios/contract.go:634-667 | evidence is valid and binds exactly when it is of the profile's kind and records its configuration and artifacts slot by slot, with well-formed digests and replay |
| `ExecutionForms.EventExactly` | backend/contract4competios/contract.go:531-632 | an event is accepted for a request and its receipt exactly when it names their competition, contest, request, provider, adapter and instance, is sealed, and has a body of its kind that fits what the request froze |
| `ExecutionAnswers.AuthorisedExactly` | backend/contract4competiostest/journey_conformance.go:112-115 | a submission passes the sink's first two checks exactly when its grant is the one for the event and the route and the event fits the request and the receipt |
| `ExecutionAnswers.UnfitSubmission` | backend/contract4competiostest/journey_conformance.go:112-115 | in every run any other submission is refused and changes nothing |
| `ExecutionAnswers.ForeignEventRefused` | backend/contract4competios/contract.go:582-586 | in every run an event of another competition, contest, request, provider, adapter or instance is refused, whatever its kind and grant, and changes nothing |
| `ExecutionAnswers.RepeatedSubmission` | backend/contract4competiostest/journey_conformance.go:116-121 | under an accepted command the same payload is a replay and another a conflict; neither changes the state |
| `ExecutionAnswers.NewSubmission` | backend/contract4competiostest/journey_conformance.go:122-128 | under a new command a submission is accepted exactly when the kinds accepted so far and its own form one of the seven lifecycles; otherwise it is an invalid transition and changes nothing |
| `ExecutionAnswers.StateTellsLastKind` | backend/contract4competios/contract.go:743-760 | each state stands for the listed lifecycles and no other |
| `ExecutionAnswers.MayLaunchExactly` | backend/contract4competiostest/conformance_test.go:24-33 | a launch passes the checks exactly when its grant is the one for request and route, the request fits and names this provider and adapter |
| `ExecutionAnswers.UnfitLaunch` | backend/contract4competiostest/conformance_test.go:24-33 | in every run any other launch is refused and changes nothing |
| `ExecutionAnswers.RepeatedLaunch` | backend/contract4competiostest/conformance_test.go:34-41 | under a launched command the same payload gets the first launch's receipt as a replay, another is a conflict, and the ledger stays |
| `ExecutionAnswers.NewLaunch` | backend/contract4competiostest/conformance_test.go:42-49 | under a new command a launch is accepted with a receipt of the listed fields and recorded with its digest |
| `FormatFacts.FormatExactly` | backend/contract4competios/capabilities.go:203-268 | a format is accepted exactly when, over its own stages and destinations: shapes are right, IDs differ, every destination leaves an advancing place of an existing contest for an existing slot of a later stage, no two share a slot or a qualifier, and every slot after the first stage is filled |
| `FormatFacts.StageSendsAtMost` | backend/contract4competios/capabilities.go:234-236 | in an accepted format a stage has at most contests times advancement destinations |
| `FormatFacts.LastStageSendsNothing` | backend/contract4competios/capabilities.go:223-236 | the last stage of an accepted format sends nobody on |
| `FormatFacts.SlotsAreSent` | backend/contract4competios/capabilities.go:203-268 | in an accepted format the slots after the first stage are as many as the destinations, so at most the sum over the stages of contests times advancement |
| `Knockout.BracketExactly` | backend/contract4competios/capabilities.go:126-166 | the construction is the one list of rounds in which each round, over its own fields, has two players a contest of whom one goes on, sends on exactly as many as the next one seats, winners 2c and 2c+1 to contest c, and ends in one contest advancing one |
| `TokenAnswers.DirectionExactly` | grants/direction.go:119-151 | the accepted configurations: names, keys, at most thirty seconds of leeway, distinct known purposes |
| `TokenAnswers.RouteExactly` | grants/route.go:17-39 | the route has the direction's names, the purpose's scope and the framed digest of content type and body, and exists exactly for permitted purposes |
| `TokenAnswers.IssuedExactly` | grants/issuer.go:35-90 | every claim of an issued token, its header and its expiry five minutes after the issue; a refusal names the purpose first |
| `TokenAnswers.VerdictExactly` | grants/verifier.go:59-141 | any token, issued here or not, is verified exactly when its type is that of access tokens, it is sealed with the first trusted key of its key ID, its claims pass the listed checks and its ID is not held; the grant is its claims, field by field |
| `TokenAnswers.VerdictReason` | grants/verifier.go:59-141 | every refusal has the listed reason, in the fixed order of the checks |
| `Verification.FirstKeyExactly` | grants/direction.go:98-117 | the lookup gives the first trusted key with the ID, and none exactly when no trusted key has it |
| `Verification.TokenVerifies` | grants/verifier.go:59-141 | a token of one direction is verified by another exactly when that one expects the reread issuer and audience, permits the purpose and finds the sealing key at any position as the first of its ID, within the whole-second window, with the token ID not held |
| `Verification.RotatedKeyFound` | grants/direction.go:98-117 | after a rotation the retired key is still found at its position among the trusted keys |
| `ReplayStores.DurableAnswerExactly` | grants/replay_dalgo.go:58-76 | in every run of the store that never forgets, an ID is refused exactly when it is empty or was presented before |
| `ReplayStores.MemoryAnswerExactly` | grants/replay_memory.go:34-58 | in every run of the sweeping store, under any clock, an ID is a replay exactly when an earlier call took it and no sweep since, its own included, came at that call's expiry or later |

## Left out

- JSON syntax, SHA-256, JWT parsing and signing, and `net/url`: library code; of JSON only what it does to texts
  and times is modelled.
- Numeric dates more than 2^53 seconds from 1970, where the token library's floating-point reading is inexact.
- The second event sink (`referenceEventSink`): it repeats grant and event checks the first one already makes and
  then takes the same steps.
- `referenceVerifier` and `referenceAuthority` of the conformance tests: stand-ins for the verifier and issuer that
  are modelled from the `grants` module itself.
- The conformance drivers, mutation tables, deliberately unsafe providers and fixture constants.
- The dalgo database, its transactions and retries: the durable store's get-then-set is one atomic step.
- Mutexes, contexts and nil receivers: each call is one atomic step on a constructed object.
- Replay stores other than the two of the `grants` module.
- Random token IDs: a parameter of issuing; failure of the random source is not modelled.
- Key material kinds (HMAC, RSA): a key is an ID, an algorithm and a secret.
- `Preferans9FormatCapability`, the capability descriptors and the bye-capable format: constants and a comment.
- `event_registration.go`, `drafts.go`, `projections.go`, `application.go`, `authority.go` and the tournament series
  files: data types and per-field checks that one branch settles.
- SourceOperations.ValidateTransferAgainstPlan: asks that each file's bytes number fewer than 2^63, as every Go slice's do.
