/** Calls an honest client makes: after any run they are accepted, also when a second retention comes between
    disclosure and publication. */
module SourceScenarios {
  import opened Primitives
  import opened ContractTypes
  import opened DigestFraming
  import opened SourceOperations
  import opened OperationGrants
  import opened SourceProvider
  import opened SourceRuns
  import opened PublicationHistory
  import opened SourceRetries

  // ----- the requests an honest client builds -----

  /** The typed digest of a payload; a payload that cannot be encoded stays unsealed, hence invalid. */
  function SealedDigest(lib: Library, domain: string, value: JsonValue): string
  {
    match DigestJSON(lib, domain, value)
    case None => ""
    case Some(digest) => digest
  }

  /** The request to retain these files under a plan. */
  function RetentionRequestFor(lib: Library, plan: ClosurePlan, files: seq<CandidateSourceFile>, command: string)
    : CandidateClosureRetentionRequest
  {
    var payload := CandidateClosureRetentionRequest(
      plan.providerID, plan.adapterID, command, plan.participantID, plan.participantVersionID, plan.repositoryNodeID,
      plan.commitOID, plan.closurePlanID, plan.closurePlanDigest, TransferDigestText(lib, files),
      plan.aggregateByteLimit, "");
    payload.(typedPayloadDigest :=
      SealedDigest(lib, CANDIDATE_CLOSURE_RETENTION_DOMAIN, CandidateRequestJson(payload)))
  }

  /** The request to compare these files with a retained artifact. */
  function DisclosureRequestFor(lib: Library, plan: ClosurePlan, retention: ArtifactRetentionReceipt,
                                files: seq<CandidateSourceFile>, command: string)
    : ArtifactDisclosureVerificationRequest
  {
    var payload := ArtifactDisclosureVerificationRequest(
      plan.providerID, plan.adapterID, command, plan.participantID, plan.participantVersionID, plan.repositoryNodeID,
      plan.commitOID, plan.closurePlanID, plan.closurePlanDigest, plan.aggregateByteLimit, retention.receiptID,
      retention.artifactDigest, TransferDigestText(lib, files), "");
    payload.(typedPayloadDigest := SealedDigest(lib, ARTIFACT_DISCLOSURE_DOMAIN, DisclosureRequestJson(payload)))
  }

  /** The request to publish a retained and disclosed artifact. */
  function PublicationRequestFor(lib: Library, retention: ArtifactRetentionReceipt,
                                 disclosure: ArtifactDisclosureVerificationRequest, command: string)
    : ArtifactPublicationRequest
  {
    var payload := ArtifactPublicationRequest(
      retention.providerID, retention.adapterID, command, retention.participantID, retention.participantVersionID,
      retention.receiptID, retention.artifactDigest, DisclosureID(disclosure.commandID), disclosure.typedPayloadDigest,
      "");
    payload.(typedPayloadDigest := SealedDigest(lib, ARTIFACT_PUBLICATION_DOMAIN, PublicationRequestJson(payload)))
  }

  /** The files keep to the provider's plan. */
  predicate KeepsToPlan(x: Setup, files: seq<CandidateSourceFile>)
  {
    && |files| == |x.planFiles| && FilesFit(x.planFiles, files) && TotalSize(files) <= x.aggregateByteLimit
  }

  lemma KeptFilesFit(x: Setup, plan: ClosurePlan, files: seq<CandidateSourceFile>)
    requires MadeHere(x, plan) && KeepsToPlan(x, files)
    ensures TransferDigest(x.lib, files) == Some(TransferDigestText(x.lib, files))
    ensures TransferFits(x.lib, plan, files, TransferDigestText(x.lib, files), plan.aggregateByteLimit)
  {
    hide PlanHeaderValid, PlanDigestMatches, DigestOf, TransferParts, DigestibleFiles, FilesFit, TotalSize,
         PlannedFilesValid;
    FittingFilesAreDigestible(plan.files, files);
    TransferAgainstValidPlan(x.lib, plan, files, TransferDigestText(x.lib, files), plan.aggregateByteLimit);
  }

  lemma HonestRetentionAdmitted(x: Setup, s: SourceState, made: ClosurePlan, call: Call, command: string)
    requires call.RetainCall? && MadeHere(x, made) && KeepsToPlan(x, call.files) && GrantBinds(x, call)
    requires call.retainRequest == RetentionRequestFor(x.lib, made, call.files, command)
    requires x.planID in s.plansByID && s.plansByID[x.planID] == made
    ensures Admitted(x, s, call)
  {
    KeptFilesFit(x, made, call.files);
    hide ValidOperationGrant, TransferFits, TransferDigestText, ValidClosurePlan, KeepsToPlan, SealedDigest, ValidRoute,
         ValidCandidateClosureRetentionRequest;
  }

  lemma HonestDisclosureAdmitted(x: Setup, s: SourceState, made: ClosurePlan, retention: ArtifactRetentionReceipt,
                                 call: Call, command: string)
    requires call.DiscloseCall? && MadeHere(x, made) && KeepsToPlan(x, call.files) && GrantBinds(x, call)
    requires call.discloseRequest == DisclosureRequestFor(x.lib, made, retention, call.files, command)
    requires retention.receiptID in s.retained
    requires s.retained[retention.receiptID].receipt == retention && s.retained[retention.receiptID].plan == made
    ensures Admitted(x, s, call)
  {
    KeptFilesFit(x, made, call.files);
    hide ValidOperationGrant, TransferFits, TransferDigestText, ValidClosurePlan, KeepsToPlan, SealedDigest, ValidRoute,
         ValidArtifactDisclosureVerificationRequest;
  }

  lemma BoundPublicationAdmitted(x: Setup, s: SourceState, call: Call)
    requires call.PublishCall? && GrantBinds(x, call)
    ensures Admitted(x, s, call)
  {
    hide ValidOperationGrant, GrantBindsPublicationRequest;
  }

  lemma HonestPublicationPrepared(x: Setup, s: SourceState, made: ClosurePlan, retention: Call, disclosure: Call,
                                  publication: Call, command: string)
    requires SetupValid(x) && retention.RetainCall? && disclosure.DiscloseCall? && publication.PublishCall?
    requires retention.retainRequest
          == RetentionRequestFor(x.lib, made, retention.files, retention.retainRequest.commandID)
    requires disclosure.discloseRequest
          == DisclosureRequestFor(x.lib, made, RetainedReceipt(x, retention.retainRequest), disclosure.files,
                                  disclosure.discloseRequest.commandID)
    requires publication.publishRequest
          == PublicationRequestFor(x.lib, RetainedReceipt(x, retention.retainRequest), disclosure.discloseRequest,
                                   command)
    requires GrantBinds(x, retention) && GrantBinds(x, disclosure) && GrantBinds(x, publication)
    requires var receiptID := RetentionID(retention.retainRequest.participantVersionID);
             receiptID in s.retained && s.retained[receiptID].receipt == RetainedReceipt(x, retention.retainRequest)
    requires var id := DisclosureID(disclosure.discloseRequest.commandID);
             && id in s.disclosureIDs
             && s.disclosureIDs[id] == DisclosureRecord(disclosure.discloseRequest,
                                                        DisclosedReceipt(x, disclosure.discloseRequest, Matched))
    ensures PublishPrepared(x, s.retained, s.disclosureIDs, publication.publishRequest)
  {
    hide ValidOperationGrant, TransferDigestText, ValidClosurePlan, SealedDigest, ValidRoute, PlannedFilesValid,
         ValidCandidateClosureRetentionRequest, ValidArtifactDisclosureVerificationRequest,
         ValidArtifactPublicationRequest, ValidRetentionReceipt;
    RetainedReceiptIsValid(x, retention.retainRequest);
    assert RetentionID(retention.retainRequest.participantVersionID) != "";
    assert DisclosureID(disclosure.discloseRequest.commandID) != "";
  }

  // ----- steps of a run that accept -----

  lemma StepAccepts(x: Setup, s: SourceState, call: Call)
    requires Sound(x) && LedgerAgrees(s) && Admitted(x, s, call) && CommandOf(call) !in s.commands
    requires call.PublishCall? ==> PublishPrepared(x, s.retained, s.disclosureIDs, call.publishRequest)
    ensures AcceptedBy(x, s, call) && Performable(x, s, call)
    ensures Step(x, s, call) == Perform(x, Claimed(s, call), call)
  {
    hide SetupValid, Admitted, PlanFor, PublishPrepared, LedgerAgrees, Perform, Performable, ReplayOf, LedgerEntry;
    AdmittedIsPerformable(x, s, call);
    PerformKeepsLedger(x, s, call);
  }

  lemma PerformWrites(x: Setup, s: SourceState, call: Call)
    requires Performable(x, s, call)
    ensures var t := Perform(x, Claimed(s, call), call).0;
            && t.commands == s.commands[CommandOf(call) := LedgerEntry(call)]
            && (call.DiscloseCall? ==>
                  t.disclosureIDs == s.disclosureIDs[DisclosureID(CommandOf(call)) := DisclosedBy(x, s, call)])
  {
    hide PlanFor, TransferDigestText, DisclosureID, RetentionID, Verdict;
  }

  /** An admitted, prepared call under a new command is accepted. */
  lemma NewCommandAccepted(x: Setup, calls: seq<Call>, k: nat)
    requires Sound(x) && k < |calls| && Admitted(x, StateAt(x, calls, k), calls[k])
    requires CommandOf(calls[k]) !in StateAt(x, calls, k).commands
    requires calls[k].PublishCall? ==>
               PublishPrepared(x, StateAt(x, calls, k).retained, StateAt(x, calls, k).disclosureIDs,
                               calls[k].publishRequest)
    ensures AcceptedAt(x, calls, k) && Performable(x, StateAt(x, calls, k), calls[k])
    ensures StateAt(x, calls, k + 1).commands
         == StateAt(x, calls, k).commands[CommandOf(calls[k]) := LedgerEntry(calls[k])]
    ensures calls[k].DiscloseCall? ==>
              StateAt(x, calls, k + 1).disclosureIDs
              == StateAt(x, calls, k).disclosureIDs[DisclosureID(CommandOf(calls[k])) :=
                   DisclosedBy(x, StateAt(x, calls, k), calls[k])]
  {
    hide SetupValid, Admitted, PublishPrepared, LedgerAgrees, Perform, Performable, Claimed, Step, AcceptedBy,
         DisclosedBy, DisclosureID, LedgerEntry;
    var s, call := StateAt(x, calls, k), calls[k];
    ReachableLedger(x, calls, k);
    StepAccepts(x, s, call);
    PerformWrites(x, s, call);
  }

  /** An honest plan call: the provider now holds the plan. */
  lemma PlanStep(x: Setup, calls: seq<Call>, k: nat)
    requires Sound(x) && k < |calls| && calls[k].PlanCall? && Admitted(x, StateAt(x, calls, k), calls[k])
    requires CommandOf(calls[k]) !in StateAt(x, calls, k).commands
    ensures AcceptedAt(x, calls, k) && PlanFor(x, calls[k].planRequest).Some?
    ensures StateAt(x, calls, k + 1).commands
         == StateAt(x, calls, k).commands[CommandOf(calls[k]) := LedgerEntry(calls[k])]
    ensures var made := PlanFor(x, calls[k].planRequest).value;
            && MadeHere(x, made) && x.planID in StateAt(x, calls, k + 1).plansByID
            && StateAt(x, calls, k + 1).plansByID[x.planID] == made
  {
    hide SetupValid, Admitted, StateAt, AcceptedBy, PlanFor, MadeHere, RetainedBy, DisclosedBy, RetentionID,
         DisclosureID, LedgerEntry, PublishPrepared;
    NewCommandAccepted(x, calls, k);
    StepEffects(x, calls, k);
    PlansAreMadeHere(x, calls[k].planRequest);
  }

  /** An honest retention: the provider now holds its record, and still the plan. */
  lemma RetainStep(x: Setup, calls: seq<Call>, k: nat, made: ClosurePlan)
    requires Sound(x) && k < |calls| && calls[k].RetainCall? && CommandOf(calls[k]) !in StateAt(x, calls, k).commands
    requires MadeHere(x, made) && KeepsToPlan(x, calls[k].files) && GrantBinds(x, calls[k])
    requires calls[k].retainRequest == RetentionRequestFor(x.lib, made, calls[k].files, CommandOf(calls[k]))
    requires x.planID in StateAt(x, calls, k).plansByID && StateAt(x, calls, k).plansByID[x.planID] == made
    ensures AcceptedAt(x, calls, k)
    ensures var s, t := StateAt(x, calls, k), StateAt(x, calls, k + 1);
            var receipt := RetainedReceipt(x, calls[k].retainRequest);
            && t.commands == s.commands[CommandOf(calls[k]) := LedgerEntry(calls[k])]
            && t.plansByID == s.plansByID && t.disclosureIDs == s.disclosureIDs
            && t.retained == s.retained[receipt.receiptID :=
                               RetainedRecord(receipt, TransferDigestText(x.lib, calls[k].files), made)]
  {
    hide SetupValid, Admitted, StateAt, AcceptedBy, PlanFor, DisclosedBy, RetentionID, DisclosureID, LedgerEntry,
         PublishPrepared, KeepsToPlan, GrantBinds, TransferDigestText, SealedDigest, ValidClosurePlan;
    HonestRetentionAdmitted(x, StateAt(x, calls, k), made, calls[k], CommandOf(calls[k]));
    NewCommandAccepted(x, calls, k);
    StepEffects(x, calls, k);
  }

  /** An honest disclosure of the retained files: the provider now holds a matched disclosure. */
  lemma DiscloseStep(x: Setup, calls: seq<Call>, k: nat, made: ClosurePlan, retention: ArtifactRetentionReceipt)
    requires Sound(x) && k < |calls| && calls[k].DiscloseCall? && CommandOf(calls[k]) !in StateAt(x, calls, k).commands
    requires MadeHere(x, made) && KeepsToPlan(x, calls[k].files) && GrantBinds(x, calls[k])
    requires calls[k].discloseRequest
          == DisclosureRequestFor(x.lib, made, retention, calls[k].files, CommandOf(calls[k]))
    requires retention.receiptID in StateAt(x, calls, k).retained
    requires StateAt(x, calls, k).retained[retention.receiptID]
          == RetainedRecord(retention, TransferDigestText(x.lib, calls[k].files), made)
    ensures AcceptedAt(x, calls, k)
    ensures var s, t, request := StateAt(x, calls, k), StateAt(x, calls, k + 1), calls[k].discloseRequest;
            && t.commands == s.commands[CommandOf(calls[k]) := LedgerEntry(calls[k])]
            && t.plansByID == s.plansByID && t.retained == s.retained
            && t.disclosureIDs == s.disclosureIDs[DisclosureID(CommandOf(calls[k])) :=
                                    DisclosureRecord(request, DisclosedReceipt(x, request, Matched))]
  {
    hide SetupValid, Admitted, StateAt, AcceptedBy, PlanFor, RetainedBy, RetentionID, DisclosureID, LedgerEntry,
         PublishPrepared, KeepsToPlan, GrantBinds, TransferDigestText, SealedDigest, MadeHere;
    HonestDisclosureAdmitted(x, StateAt(x, calls, k), made, retention, calls[k], CommandOf(calls[k]));
    NewCommandAccepted(x, calls, k);
    StepEffects(x, calls, k);
  }

  lemma MatchedAnswer(x: Setup, calls: seq<Call>, k: nat)
    requires Sound(x) && k < |calls| && AcceptedAt(x, calls, k) && calls[k].DiscloseCall?
    requires var id := DisclosureID(CommandOf(calls[k]));
             && id in StateAt(x, calls, k + 1).disclosureIDs
             && StateAt(x, calls, k + 1).disclosureIDs[id].receipt
                == DisclosedReceipt(x, calls[k].discloseRequest, Matched)
    ensures OutcomeAt(x, calls, k)
         == Answered(DisclosureReceipt(DisclosedReceipt(x, calls[k].discloseRequest, Matched)))
  {
    hide SetupValid, StateAt, AcceptedBy, PublishPrepared, TransferDigestText, Step, Admitted;
    RunStep(x, calls, k);
  }

  lemma PublishStep(x: Setup, calls: seq<Call>, k: nat, made: ClosurePlan, retention: Call, disclosure: Call)
    requires Sound(x) && k < |calls| && calls[k].PublishCall? && CommandOf(calls[k]) !in StateAt(x, calls, k).commands
    requires retention.RetainCall? && disclosure.DiscloseCall?
    requires retention.retainRequest == RetentionRequestFor(x.lib, made, retention.files, CommandOf(retention))
    requires disclosure.discloseRequest
          == DisclosureRequestFor(x.lib, made, RetainedReceipt(x, retention.retainRequest), disclosure.files,
                                  CommandOf(disclosure))
    requires calls[k].publishRequest
          == PublicationRequestFor(x.lib, RetainedReceipt(x, retention.retainRequest), disclosure.discloseRequest,
                                   CommandOf(calls[k]))
    requires GrantBinds(x, retention) && GrantBinds(x, disclosure) && GrantBinds(x, calls[k])
    requires var s, receipt := StateAt(x, calls, k), RetainedReceipt(x, retention.retainRequest);
             && receipt.receiptID in s.retained && s.retained[receipt.receiptID].receipt == receipt
             && DisclosureID(CommandOf(disclosure)) in s.disclosureIDs
             && s.disclosureIDs[DisclosureID(CommandOf(disclosure))]
                == DisclosureRecord(disclosure.discloseRequest,
                                    DisclosedReceipt(x, disclosure.discloseRequest, Matched))
    ensures PublishPrepared(x, StateAt(x, calls, k).retained, StateAt(x, calls, k).disclosureIDs,
                            calls[k].publishRequest)
    ensures AcceptedAt(x, calls, k) && CommandOf(calls[k]) in StateAt(x, calls, k + 1).publications
    ensures StateAt(x, calls, k + 1).publications[CommandOf(calls[k])] == PublishedReceipt(x, calls[k].publishRequest)
  {
    hide SetupValid, StateAt, AcceptedBy, PlanFor, RetainedBy, DisclosedBy, RetentionID, DisclosureID, LedgerEntry,
         PublishPrepared, TransferDigestText, SealedDigest, RetentionRequestFor, DisclosureRequestFor,
         PublicationRequestFor, ValidRoute, ValidOperationGrant, ValidArtifactPublicationRequest, DisclosedReceipt,
         PublishedReceipt, ValidCandidateClosureRetentionRequest, ValidArtifactDisclosureVerificationRequest;
    HonestPublicationPrepared(x, StateAt(x, calls, k), made, retention, disclosure, calls[k], CommandOf(calls[k]));
    NewCommandAccepted(x, calls, k);
    StepEffects(x, calls, k);
  }

  /** A retention of files that keep to the plan, with a valid grant of its own. */
  ghost predicate HonestRetention(x: Setup, plan: Call, retain: Call)
  {
    && plan.PlanCall? && PlanFor(x, plan.planRequest).Some?
    && retain.RetainCall? && GrantBinds(x, retain) && KeepsToPlan(x, retain.files)
    && retain.retainRequest
       == RetentionRequestFor(x.lib, PlanFor(x, plan.planRequest).value, retain.files, CommandOf(retain))
  }

  /** A plan, a retention and a disclosure of the same files, each built from the answers before it and carrying a
      valid grant of its own. */
  ghost predicate HonestDisclosure(x: Setup, plan: Call, retain: Call, disclose: Call)
  {
    && plan.PlanCall? && PlanAdmitted(x, plan.grant, plan.planRequest, plan.manifestBytes)
    && HonestRetention(x, plan, retain)
    && disclose.DiscloseCall? && GrantBinds(x, disclose) && disclose.files == retain.files
    && disclose.discloseRequest
       == DisclosureRequestFor(x.lib, PlanFor(x, plan.planRequest).value, RetainedReceipt(x, retain.retainRequest),
                               disclose.files, CommandOf(disclose))
  }

  /** A publication built from the answers to a retention and its disclosure. */
  ghost predicate HonestPublication(x: Setup, retain: Call, disclose: Call, publish: Call)
  {
    && retain.RetainCall? && disclose.DiscloseCall? && publish.PublishCall? && GrantBinds(x, publish)
    && publish.publishRequest
       == PublicationRequestFor(x.lib, RetainedReceipt(x, retain.retainRequest), disclose.discloseRequest,
                                CommandOf(publish))
  }

  /** None of the calls' commands is known, and no two of them share one. */
  predicate NewCommands(commands: map<string, CommandRecord>, calls: seq<Call>)
  {
    && (forall i | 0 <= i < |calls| :: CommandOf(calls[i]) !in commands)
    && forall i, j | 0 <= i < j < |calls| :: CommandOf(calls[i]) != CommandOf(calls[j])
  }

  lemma FirstThreeNew(commands: map<string, CommandRecord>, calls: seq<Call>)
    requires |calls| >= 3 && NewCommands(commands, calls)
    ensures CommandOf(calls[0]) !in commands && CommandOf(calls[1]) !in commands && CommandOf(calls[2]) !in commands
    ensures CommandOf(calls[0]) != CommandOf(calls[1]) && CommandOf(calls[0]) != CommandOf(calls[2])
    ensures CommandOf(calls[1]) != CommandOf(calls[2])
    ensures forall i | 3 <= i < |calls| ::
              CommandOf(calls[i]) !in commands.Keys + {CommandOf(calls[0]), CommandOf(calls[1]), CommandOf(calls[2])}
  {
    hide CommandOf;
  }

  /** What the first three honest calls of a run leave. */
  ghost predicate DisclosedAt(x: Setup, run: seq<Call>, n: nat)
  {
    && n + 3 <= |run| && run[n].PlanCall? && run[n + 1].RetainCall? && run[n + 2].DiscloseCall?
    && AcceptedAt(x, run, n) && AcceptedAt(x, run, n + 1) && AcceptedAt(x, run, n + 2)
    && PlanFor(x, run[n].planRequest).Some?
    && var s, made := StateAt(x, run, n + 3), PlanFor(x, run[n].planRequest).value;
    && var receipt := RetainedReceipt(x, run[n + 1].retainRequest);
    && s.commands.Keys
       == StateAt(x, run, n).commands.Keys + {CommandOf(run[n]), CommandOf(run[n + 1]), CommandOf(run[n + 2])}
    && x.planID in s.plansByID && s.plansByID[x.planID] == made
    && receipt.receiptID in s.retained
    && s.retained[receipt.receiptID] == RetainedRecord(receipt, TransferDigestText(x.lib, run[n + 1].files), made)
    && DisclosureID(CommandOf(run[n + 2])) in s.disclosureIDs
    && s.disclosureIDs[DisclosureID(CommandOf(run[n + 2]))]
       == DisclosureRecord(run[n + 2].discloseRequest, DisclosedReceipt(x, run[n + 2].discloseRequest, Matched))
  }

  lemma HonestCallsDisclose(x: Setup, run: seq<Call>, n: nat)
    requires Sound(x) && n + 3 <= |run| && HonestDisclosure(x, run[n], run[n + 1], run[n + 2])
    requires NewCommands(StateAt(x, run, n).commands, run[n..])
    ensures DisclosedAt(x, run, n)
    ensures forall i | n + 3 <= i < |run| :: CommandOf(run[i]) !in StateAt(x, run, n + 3).commands
  {
    hide SetupValid, StateAt, AcceptedBy, PlanFor, RetentionID, DisclosureID, LedgerEntry, PublishPrepared, KeepsToPlan,
         GrantBinds, TransferDigestText, SealedDigest, MadeHere, PlanAdmitted, RetentionRequestFor,
         DisclosureRequestFor, Step, RetainedReceipt, DisclosedReceipt, CommandOf, AcceptedAt, NewCommands;
    FirstThreeNew(StateAt(x, run, n).commands, run[n..]);
    assert run[n..][0] == run[n] && run[n..][1] == run[n + 1] && run[n..][2] == run[n + 2];
    assert Admitted(x, StateAt(x, run, n), run[n]);
    PlanStep(x, run, n);
    var made, receipt := PlanFor(x, run[n].planRequest).value, RetainedReceipt(x, run[n + 1].retainRequest);
    RetainStep(x, run, n + 1, made);
    DiscloseStep(x, run, n + 2, made, receipt);
    forall i | n + 3 <= i < |run| ensures CommandOf(run[i]) !in StateAt(x, run, n + 3).commands {
      assert run[n..][i - n] == run[i];
    }
  }

  /** Steps n to n+3 of a run are accepted, the disclosure is matched, and the publication is stored. */
  ghost predicate ChainAccepted(x: Setup, run: seq<Call>, n: nat)
  {
    && n + 4 <= |run| && run[n + 2].DiscloseCall? && run[n + 3].PublishCall?
    && AcceptedAt(x, run, n) && AcceptedAt(x, run, n + 1) && AcceptedAt(x, run, n + 2) && AcceptedAt(x, run, n + 3)
    && OutcomeAt(x, run, n + 2)
       == Answered(DisclosureReceipt(DisclosedReceipt(x, run[n + 2].discloseRequest, Matched)))
    && CommandOf(run[n + 3]) in StateAt(x, run, n + 4).publications
    && StateAt(x, run, n + 4).publications[CommandOf(run[n + 3])] == PublishedReceipt(x, run[n + 3].publishRequest)
  }

  lemma HonestChain(x: Setup, run: seq<Call>, n: nat)
    requires Sound(x) && n + 4 <= |run| && HonestDisclosure(x, run[n], run[n + 1], run[n + 2])
    requires HonestPublication(x, run[n + 1], run[n + 2], run[n + 3])
    requires NewCommands(StateAt(x, run, n).commands, run[n..])
    ensures ChainAccepted(x, run, n)
  {
    hide SetupValid, StateAt, AcceptedBy, PlanFor, RetentionID, DisclosureID, LedgerEntry, PublishPrepared, KeepsToPlan,
         GrantBinds, TransferDigestText, SealedDigest, MadeHere, PlanAdmitted, RetentionRequestFor, NewCommands,
         DisclosureRequestFor, PublicationRequestFor, Step, RetainedReceipt, DisclosedReceipt, CommandOf, AcceptedAt,
         PublishedReceipt, OutcomeAt;
    HonestCallsDisclose(x, run, n);
    MatchedAnswer(x, run, n + 2);
    PublishStep(x, run, n + 3, PlanFor(x, run[n].planRequest).value, run[n + 1], run[n + 2]);
  }

  /** After any run, honest plan, retain, disclose and publish calls under new commands are all accepted, the
      disclosure is matched, and the publication is stored. */
  lemma HonestCallsAreAccepted(x: Setup, calls: seq<Call>, plan: Call, retain: Call, disclose: Call, publish: Call)
    requires Sound(x) && HonestDisclosure(x, plan, retain, disclose) && HonestPublication(x, retain, disclose, publish)
    requires NewCommands(StateAt(x, calls, |calls|).commands, [plan, retain, disclose, publish])
    ensures ChainAccepted(x, calls + [plan, retain, disclose, publish], |calls|)
  {
    hide SetupValid, StateAt, HonestDisclosure, HonestPublication, NewCommands, ChainAccepted;
    var n, run := |calls|, calls + [plan, retain, disclose, publish];
    assert run[..n] == calls[..n] && run[n..] == [plan, retain, disclose, publish];
    StateOfPrefix(x, run, calls, n);
    HonestChain(x, run, n);
  }

  // ----- a second retention before the publication -----

  /** Steps n to n+4 of a run are accepted, the publication names the disclosure of step n+2, and the record it finds
      has another transfer digest than that disclosure exactly when the two retentions transferred files of
      different digests. */
  ghost predicate ReplacedAndPublished(x: Setup, run: seq<Call>, n: nat)
  {
    && n + 5 <= |run| && run[n + 1].RetainCall? && run[n + 2].DiscloseCall? && run[n + 3].RetainCall?
    && run[n + 4].PublishCall? && (forall k | n <= k < n + 5 :: AcceptedAt(x, run, k))
    && PublicationNames(run[n + 4].publishRequest, run[n + 2].discloseRequest)
    && var receiptID := run[n + 4].publishRequest.retentionReceiptID;
    && receiptID in StateAt(x, run, n + 4).retained
    && var disclosed := TransferDigest(x.lib, run[n + 2].files);
    && disclosed == TransferDigest(x.lib, run[n + 1].files) && disclosed.Some?
    && (StateAt(x, run, n + 4).retained[receiptID].transferDigest != disclosed.value
        <==> TransferDigest(x.lib, run[n + 3].files) != TransferDigest(x.lib, run[n + 1].files))
  }

  lemma SecondRetentionAccepted(x: Setup, run: seq<Call>, n: nat)
    requires Sound(x) && n + 5 <= |run| && DisclosedAt(x, run, n) && HonestRetention(x, run[n], run[n + 3])
    requires HonestDisclosure(x, run[n], run[n + 1], run[n + 2])
    requires CommandOf(run[n + 3]) !in StateAt(x, run, n + 3).commands
    ensures AcceptedAt(x, run, n + 3)
    ensures var receiptID := RetainedReceipt(x, run[n + 1].retainRequest).receiptID;
            && RetainedReceipt(x, run[n + 3].retainRequest).receiptID == receiptID
            && RetentionBinding(run[n + 3].retainRequest) == RetentionBinding(run[n + 1].retainRequest)
            && receiptID in StateAt(x, run, n + 4).retained
            && StateAt(x, run, n + 4).retained[receiptID].transferDigest
               == TransferDigestText(x.lib, run[n + 3].files)
    ensures StateAt(x, run, n + 4).commands.Keys == StateAt(x, run, n + 3).commands.Keys + {CommandOf(run[n + 3])}
  {
    hide SetupValid, StateAt, AcceptedBy, PlanFor, RetentionID, DisclosureID, LedgerEntry, PublishPrepared, KeepsToPlan,
         GrantBinds, TransferDigestText, SealedDigest, MadeHere, PlanAdmitted, DisclosureRequestFor, Step,
         DisclosedReceipt, CommandOf, AcceptedAt;
    PlansAreMadeHere(x, run[n].planRequest);
    RetainStep(x, run, n + 3, PlanFor(x, run[n].planRequest).value);
  }

  lemma HonestNames(x: Setup, plan: Call, retain: Call, disclose: Call, publish: Call)
    requires HonestDisclosure(x, plan, retain, disclose) && HonestPublication(x, retain, disclose, publish)
    ensures PublicationNames(publish.publishRequest, disclose.discloseRequest)
  {
    hide GrantBinds, KeepsToPlan, PlanAdmitted, PlanFor, SealedDigest, TransferDigestText, RetentionID, DisclosureID;
  }

  lemma StillPublished(x: Setup, run: seq<Call>, n: nat)
    requires Sound(x) && n + 5 <= |run| && DisclosedAt(x, run, n) && HonestRetention(x, run[n], run[n + 3])
    requires HonestDisclosure(x, run[n], run[n + 1], run[n + 2])
    requires HonestPublication(x, run[n + 1], run[n + 2], run[n + 4])
    requires CommandOf(run[n + 3]) !in StateAt(x, run, n + 3).commands
    requires CommandOf(run[n + 4]) !in StateAt(x, run, n + 4).commands
    ensures AcceptedAt(x, run, n + 4) && PublicationNames(run[n + 4].publishRequest, run[n + 2].discloseRequest)
    ensures run[n + 4].publishRequest.retentionReceiptID == RetainedReceipt(x, run[n + 1].retainRequest).receiptID
  {
    hide SetupValid, StateAt, AcceptedBy, PlanFor, RetentionID, DisclosureID, LedgerEntry, PublishPrepared, KeepsToPlan,
         GrantBinds, TransferDigestText, SealedDigest, MadeHere, PlanAdmitted, Step, Admitted,
         DisclosedReceipt, AcceptedAt, RetentionRequestFor, PublicationNames;
    HonestNames(x, run[n], run[n + 1], run[n + 2], run[n + 4]);
    SecondRetentionAccepted(x, run, n);
    HonestPublicationPrepared(x, StateAt(x, run, n + 3), PlanFor(x, run[n].planRequest).value, run[n + 1], run[n + 2],
                              run[n + 4], CommandOf(run[n + 4]));
    ReplacedRetentionStillPublishes(x, run, n + 3, run[n + 4].publishRequest);
    BoundPublicationAdmitted(x, StateAt(x, run, n + 4), run[n + 4]);
    NewCommandAccepted(x, run, n + 4);
  }

  lemma LastTwoNew(commands: map<string, CommandRecord>, run: seq<Call>, n: nat)
    requires n + 5 <= |run| && NewCommands(commands, run[n..])
    ensures CommandOf(run[n + 3]) != CommandOf(run[n + 4])
  {
    hide CommandOf;
    assert run[n..][3] == run[n + 3] && run[n..][4] == run[n + 4];
  }

  lemma ReplacementChain(x: Setup, run: seq<Call>, n: nat)
    requires Sound(x) && n + 5 <= |run| && HonestDisclosure(x, run[n], run[n + 1], run[n + 2])
    requires HonestRetention(x, run[n], run[n + 3]) && HonestPublication(x, run[n + 1], run[n + 2], run[n + 4])
    requires NewCommands(StateAt(x, run, n).commands, run[n..])
    ensures ReplacedAndPublished(x, run, n)
  {
    hide SetupValid, StateAt, AcceptedBy, PlanFor, RetentionID, DisclosureID, LedgerEntry, PublishPrepared, KeepsToPlan,
         GrantBinds, TransferDigestText, SealedDigest, MadeHere, PlanAdmitted, Step, DisclosedReceipt, CommandOf,
         AcceptedAt, RetentionRequestFor, TransferDigest, NewCommands, TransferFits, PublicationNames,
         DisclosureRequestFor, PublicationRequestFor, RetainedReceipt, RetentionBinding;
    HonestCallsDisclose(x, run, n);
    SecondRetentionAccepted(x, run, n);
    LastTwoNew(StateAt(x, run, n).commands, run, n);
    StillPublished(x, run, n);
    PlansAreMadeHere(x, run[n].planRequest);
    var made := PlanFor(x, run[n].planRequest).value;
    KeptFilesFit(x, made, run[n + 1].files);
    KeptFilesFit(x, made, run[n + 3].files);
  }

  /** After any run, an honest plan, retention and disclosure, a second honest retention, and the publication of what
      was disclosed, under new commands, are all accepted. The published record is of the disclosed digest exactly
      when the second retention transferred files of the same digest. */
  lemma ReplacedRecordIsPublished(x: Setup, calls: seq<Call>, plan: Call, retain: Call, disclose: Call, again: Call,
                                  publish: Call)
    requires Sound(x) && HonestDisclosure(x, plan, retain, disclose) && HonestRetention(x, plan, again)
    requires HonestPublication(x, retain, disclose, publish)
    requires NewCommands(StateAt(x, calls, |calls|).commands, [plan, retain, disclose, again, publish])
    ensures ReplacedAndPublished(x, calls + [plan, retain, disclose, again, publish], |calls|)
  {
    hide SetupValid, StateAt, HonestDisclosure, HonestRetention, HonestPublication, NewCommands, ReplacedAndPublished;
    var n, run := |calls|, calls + [plan, retain, disclose, again, publish];
    assert run[..n] == calls[..n] && run[n..] == [plan, retain, disclose, again, publish];
    StateOfPrefix(x, run, calls, n);
    ReplacementChain(x, run, n);
  }

  // ----- a second plan and retention before the retries -----

  /** In state s every exact retry of a call is an invalid grant and changes nothing; the call is one itself. */
  ghost predicate TurnsAway(x: Setup, s: SourceState, first: Call)
  {
    && IsRetry(x, first, first)
    && forall retry: Call | IsRetry(x, first, retry) :: Step(x, s, retry) == (s, Refused(InvalidGrant))
  }

  /** Steps n to n+4 of a run are accepted, and every exact retry of the first retention and of its disclosure is then
      turned away. */
  ghost predicate RetriesTurnedAway(x: Setup, run: seq<Call>, n: nat)
  {
    && n + 5 <= |run| && (forall k | n <= k < n + 5 :: AcceptedAt(x, run, k))
    && TurnsAway(x, StateAt(x, run, n + 5), run[n + 1]) && TurnsAway(x, StateAt(x, run, n + 5), run[n + 2])
  }

  lemma HonestCallsAreRetries(x: Setup, plan: Call, retain: Call, disclose: Call)
    requires HonestDisclosure(x, plan, retain, disclose)
    ensures IsRetry(x, retain, retain) && IsRetry(x, disclose, disclose)
  {
    hide GrantBinds, KeepsToPlan, PlanAdmitted, PlanFor, RetentionRequestFor, DisclosureRequestFor;
  }

  /** The plan and the retention of steps n+3 and n+4, for another commit of the same version, are accepted too. */
  lemma OtherSourceAccepted(x: Setup, run: seq<Call>, n: nat)
    requires Sound(x) && n + 5 <= |run| && DisclosedAt(x, run, n) && run[n + 3].PlanCall?
    requires Admitted(x, StateAt(x, run, n + 3), run[n + 3]) && HonestRetention(x, run[n + 3], run[n + 4])
    requires CommandOf(run[n + 3]) !in StateAt(x, run, n + 3).commands
    requires CommandOf(run[n + 4]) !in StateAt(x, run, n + 3).commands && CommandOf(run[n + 3]) != CommandOf(run[n + 4])
    ensures AcceptedAt(x, run, n + 3) && AcceptedAt(x, run, n + 4)
  {
    hide SetupValid, StateAt, AcceptedBy, PlanFor, RetentionID, DisclosureID, LedgerEntry, PublishPrepared, KeepsToPlan,
         GrantBinds, TransferDigestText, SealedDigest, MadeHere, Admitted, RetentionRequestFor, Step, RetainedReceipt,
         DisclosedReceipt, CommandOf, AcceptedAt, DisclosedAt;
    PlanStep(x, run, n + 3);
    RetainStep(x, run, n + 4, PlanFor(x, run[n + 3].planRequest).value);
  }

  /** Calls n to n+4: plan, retain and disclose honestly, then plan and retain honestly for another commit of the same
      participant version. */
  ghost predicate HonestForTwoCommits(x: Setup, run: seq<Call>, n: nat)
  {
    && n + 5 <= |run| && HonestDisclosure(x, run[n], run[n + 1], run[n + 2])
    && run[n + 3].PlanCall? && PlanAdmitted(x, run[n + 3].grant, run[n + 3].planRequest, run[n + 3].manifestBytes)
    && HonestRetention(x, run[n + 3], run[n + 4])
    && run[n].planRequest.participantVersionID == run[n + 3].planRequest.participantVersionID
    && run[n].planRequest.commitOID != run[n + 3].planRequest.commitOID
  }

  lemma SameReceiptID(x: Setup, run: seq<Call>, n: nat)
    requires HonestForTwoCommits(x, run, n)
    ensures var receiptID := run[n + 2].discloseRequest.retentionReceiptID;
            && RetentionID(run[n + 1].retainRequest.participantVersionID) == receiptID
            && RetentionID(run[n + 4].retainRequest.participantVersionID) == receiptID
  {
    hide GrantBinds, KeepsToPlan, PlanAdmitted, PlanFor, SealedDigest, TransferDigestText, RetentionID;
    PlanIDKept(x, run[n].planRequest);
    PlanIDKept(x, run[n + 3].planRequest);
  }

  /** The last plans and retentions before the steps that matter. */
  lemma LastOnes(x: Setup, run: seq<Call>, n: nat)
    requires n + 5 <= |run| && HonestForTwoCommits(x, run, n) && forall k | n <= k < n + 5 :: AcceptedAt(x, run, k)
    ensures LastPlan(x, run, n + 1, n) && LastPlan(x, run, n + 4, n + 3) && LastPlan(x, run, n + 5, n + 3)
    ensures var receiptID := run[n + 2].discloseRequest.retentionReceiptID;
            LastRetention(x, run, n + 2, receiptID, n + 1) && LastRetention(x, run, n + 5, receiptID, n + 4)
  {
    hide AcceptedAt, GrantBinds, KeepsToPlan, PlanAdmitted, PlanFor, RetentionID, RetentionRequestFor,
         DisclosureRequestFor;
    SameReceiptID(x, run, n);
  }

  /** After any run, and whatever else is in it: when an honest plan, retention and disclosure are followed by an honest
      plan and retention for another commit of the same version, all are accepted and the first retention and the
      disclosure can no longer be retried. */
  lemma TwoCommitsChain(x: Setup, run: seq<Call>, n: nat)
    requires Sound(x) && HonestForTwoCommits(x, run, n) && NewCommands(StateAt(x, run, n).commands, run[n..])
    ensures RetriesTurnedAway(x, run, n)
  {
    hide SetupValid, StateAt, GrantBinds, KeepsToPlan, PlanAdmitted, PlanFor, RetentionRequestFor, DisclosureRequestFor,
         AcceptedAt, LastPlan, LastRetention, NewCommands, Step, CommandOf, IsRetry, RetainedReceipt, DisclosedReceipt,
         DisclosureID, RetentionID, TransferDigestText;
    HonestCallsDisclose(x, run, n);
    LastTwoNew(StateAt(x, run, n).commands, run, n);
    OtherSourceAccepted(x, run, n);
    HonestCallsAreRetries(x, run[n], run[n + 1], run[n + 2]);
    LastOnes(x, run, n);
    var retain, disclose := run[n + 1], run[n + 2];
    forall retry: Call | IsRetry(x, retain, retry)
      ensures Step(x, StateAt(x, run, n + 5), retry) == (StateAt(x, run, n + 5), Refused(InvalidGrant))
    {
      OtherPlanTurnsRetryAway(x, run, n + 1, n + 5, n, n + 3, retry);
    }
    forall retry: Call | IsRetry(x, disclose, retry)
      ensures Step(x, StateAt(x, run, n + 5), retry) == (StateAt(x, run, n + 5), Refused(InvalidGrant))
    {
      OtherRetentionTurnsRetryAway(x, run, n + 2, n + 5, n + 1, n, n + 4, n + 3, retry);
    }
  }
}
