/** The reference provider of the staged source-artifact port: plan, retain, disclose, publish, and the
    one command ledger all four stages share. */
module SourceProvider {
  import opened Primitives
  import opened ContractTypes
  import opened SourceOperations
  import opened OperationGrants

  datatype CommandRecord = CommandRecord(purpose: GrantPurpose, digest: string)

  datatype DisclosureRecord = DisclosureRecord(
    request: ArtifactDisclosureVerificationRequest, receipt: ArtifactDisclosureVerificationReceipt)

  datatype RetainedRecord = RetainedRecord(
    receipt: ArtifactRetentionReceipt, transferDigest: string, plan: ClosurePlan)

  /** The provider's fixed facts: what every plan lists, what it stamps on receipts, the route it expects
      for each call, and the deliberate ledger defect. */
  datatype Setup = Setup(
    lib: Library, planID: string, planFiles: seq<PlannedSourceFile>, aggregateByteLimit: uint64,
    artifactDigest: string, verifiedAt: Time, publishedAt: Time, publicReference: string,
    manifestRoute: (ManifestClosurePlanRequest, string) -> OperationRouteBinding,
    candidateRoute: (CandidateClosureRetentionRequest, seq<CandidateSourceFile>) -> OperationRouteBinding,
    disclosureRoute: (ArtifactDisclosureVerificationRequest, seq<CandidateSourceFile>) -> OperationRouteBinding,
    publicationRoute: ArtifactPublicationRequest -> OperationRouteBinding,
    allowManifestToDisclosureCollision: bool)

  datatype SourceState = SourceState(
    plansByID: map<string, ClosurePlan>, planCommands: map<string, ClosurePlanReceipt>,
    commands: map<string, CommandRecord>, candidates: map<string, ArtifactRetentionReceipt>,
    retained: map<string, RetainedRecord>, publications: map<string, ArtifactPublicationReceipt>,
    disclosures: map<string, DisclosureRecord>, disclosureIDs: map<string, DisclosureRecord>)

  const NOTHING := SourceState(map[], map[], map[], map[], map[], map[], map[], map[])

  datatype Call =
    | PlanCall(grant: OperationGrant, planRequest: ManifestClosurePlanRequest, manifestBytes: string)
    | RetainCall(grant: OperationGrant, retainRequest: CandidateClosureRetentionRequest,
                 files: seq<CandidateSourceFile>)
    | DiscloseCall(grant: OperationGrant, discloseRequest: ArtifactDisclosureVerificationRequest,
                   files: seq<CandidateSourceFile>)
    | PublishCall(grant: OperationGrant, publishRequest: ArtifactPublicationRequest)

  datatype Receipt =
    | PlanReceipt(planned: ClosurePlanReceipt)
    | RetentionReceipt(retention: ArtifactRetentionReceipt)
    | DisclosureReceipt(disclosure: ArtifactDisclosureVerificationReceipt)
    | PublicationReceipt(publication: ArtifactPublicationReceipt)

  datatype SourceError = InvalidGrant | SourceCommandConflict

  /** `BlankReplay` is a replay whose receipt is missing from its map, where Go reads the zero receipt. */
  datatype Outcome = Answered(receipt: Receipt) | Refused(error: SourceError) | BlankReplay | Panicked

  function CommandOf(call: Call): string
  {
    match call
    case PlanCall(_, request, _) => request.commandID
    case RetainCall(_, request, _) => request.commandID
    case DiscloseCall(_, request, _) => request.commandID
    case PublishCall(_, request) => request.commandID
  }

  /** What the ledger keeps of a call. */
  function LedgerEntry(call: Call): CommandRecord
  {
    match call
    case PlanCall(_, request, _) => CommandRecord(ManifestClosurePlan, request.typedPayloadDigest)
    case RetainCall(_, request, _) => CommandRecord(CandidateValidateRetain, request.typedPayloadDigest)
    case DiscloseCall(_, request, _) => CommandRecord(ArtifactDisclosureVerify, request.typedPayloadDigest)
    case PublishCall(_, request) => CommandRecord(ArtifactPublish, request.typedPayloadDigest)
  }

  // ----- the checks before the ledger -----

  predicate PlanAdmitted(x: Setup, grant: OperationGrant, request: ManifestClosurePlanRequest, manifestBytes: string)
  {
    && ValidOperationGrant(grant)
    && GrantBindsManifestRequest(x.lib, grant, x.manifestRoute(request, manifestBytes), request)
    && ValidManifestClosurePlanInput(x.lib, request, manifestBytes)
  }

  predicate RetainAdmitted(x: Setup, plansByID: map<string, ClosurePlan>, grant: OperationGrant,
                           request: CandidateClosureRetentionRequest, files: seq<CandidateSourceFile>)
  {
    && request.closurePlanID in plansByID && ValidOperationGrant(grant)
    && GrantBindsCandidateRequest(x.lib, grant, x.candidateRoute(request, files), request)
    && ValidCandidateClosureInput(x.lib, request, plansByID[request.closurePlanID], files)
  }

  predicate DiscloseAdmitted(x: Setup, retained: map<string, RetainedRecord>, grant: OperationGrant,
                             request: ArtifactDisclosureVerificationRequest, files: seq<CandidateSourceFile>)
  {
    && request.retentionReceiptID in retained && ValidOperationGrant(grant)
    && GrantBindsDisclosureRequest(x.lib, grant, x.disclosureRoute(request, files), request)
    && ValidArtifactDisclosureInput(x.lib, request, retained[request.retentionReceiptID].plan, files)
    && retained[request.retentionReceiptID].receipt.artifactDigest == request.artifactDigest
  }

  predicate PublishAdmitted(x: Setup, grant: OperationGrant, request: ArtifactPublicationRequest)
  {
    && ValidOperationGrant(grant)
    && GrantBindsPublicationRequest(x.lib, grant, x.publicationRoute(request), request)
  }

  predicate Admitted(x: Setup, s: SourceState, call: Call)
  {
    match call
    case PlanCall(grant, request, manifestBytes) => PlanAdmitted(x, grant, request, manifestBytes)
    case RetainCall(grant, request, files) => RetainAdmitted(x, s.plansByID, grant, request, files)
    case DiscloseCall(grant, request, files) => DiscloseAdmitted(x, s.retained, grant, request, files)
    case PublishCall(grant, request) => PublishAdmitted(x, grant, request)
  }

  /** Publication alone has a second guard, behind the ledger's replay answer. */
  predicate PublishPrepared(x: Setup, retained: map<string, RetainedRecord>,
                            disclosureIDs: map<string, DisclosureRecord>, request: ArtifactPublicationRequest)
  {
    && request.retentionReceiptID in retained && request.disclosureReceiptID in disclosureIDs
    && ValidArtifactPublicationPrerequisites(
         x.lib, request, retained[request.retentionReceiptID].receipt,
         disclosureIDs[request.disclosureReceiptID].request, disclosureIDs[request.disclosureReceiptID].receipt)
  }

  // ----- the receipts -----

  function NewClosurePlan(lib: Library, plan: ClosurePlan): Option<ClosurePlan>
  {
    match DigestJSON(lib, CLOSURE_PLAN_DOMAIN, ClosurePlanJson(plan.(closurePlanDigest := "")))
    case None => None
    case Some(digest) =>
      var value := plan.(closurePlanDigest := digest);
      if ValidClosurePlan(lib, value) then Some(value) else None
  }

  /** The plan of a manifest, before its digest is computed. */
  function PlanDraft(x: Setup, request: ManifestClosurePlanRequest): ClosurePlan
  {
    ClosurePlan(
      x.planID, request.providerID, request.adapterID, request.participantID, request.participantVersionID,
      request.repositoryNodeID, request.commitOID, request.manifestPath, request.manifestEntryKind,
      request.typedPayloadDigest, request.rawManifestBytesDigest, x.planFiles, x.aggregateByteLimit, "")
  }

  function PlanFor(x: Setup, request: ManifestClosurePlanRequest): Option<ClosurePlan>
  {
    NewClosurePlan(x.lib, PlanDraft(x, request))
  }

  function PlannedReceipt(request: ManifestClosurePlanRequest, plan: ClosurePlan): ClosurePlanReceipt
  {
    ClosurePlanReceipt(request.providerID, request.adapterID, request.commandID, request.participantID,
                       request.participantVersionID, request.typedPayloadDigest, plan, Accepted)
  }

  function RetentionID(participantVersionID: string): string { "retention-" + participantVersionID }

  function RetainedReceipt(x: Setup, request: CandidateClosureRetentionRequest): ArtifactRetentionReceipt
  {
    ArtifactRetentionReceipt(
      RetentionID(request.participantVersionID), request.providerID, request.adapterID, request.commandID,
      request.participantID, request.participantVersionID, request.closurePlanID, request.closurePlanDigest,
      request.typedPayloadDigest, x.artifactDigest, Accepted)
  }

  /** The digest call whose error is ignored: an error leaves the empty text. */
  function TransferDigestText(lib: Library, files: seq<CandidateSourceFile>): string
  {
    match TransferDigest(lib, files)
    case None => ""
    case Some(digest) => digest
  }

  const DISCLOSURE_PREFIX := "disclosure-"

  function DisclosureID(commandID: string): string { DISCLOSURE_PREFIX + commandID }

  function DisclosedReceipt(x: Setup, request: ArtifactDisclosureVerificationRequest, verdict: DisclosureVerdict)
    : ArtifactDisclosureVerificationReceipt
  {
    ArtifactDisclosureVerificationReceipt(
      DisclosureID(request.commandID), request.providerID, request.adapterID, request.commandID,
      request.participantID, request.participantVersionID, request.retentionReceiptID, request.artifactDigest,
      request.typedPayloadDigest, verdict, x.verifiedAt)
  }

  function Verdict(publicDigest: string, transferDigest: string): DisclosureVerdict
  {
    if publicDigest == transferDigest then Matched else Mismatched
  }

  function PublishedReceipt(x: Setup, request: ArtifactPublicationRequest): ArtifactPublicationReceipt
  {
    ArtifactPublicationReceipt(
      "publication-1", request.providerID, request.adapterID, request.commandID, request.participantID,
      request.participantVersionID, request.retentionReceiptID, request.disclosureReceiptID,
      request.disclosureRequestDigest, request.typedPayloadDigest, request.artifactDigest, x.publishedAt,
      x.publicReference, Accepted)
  }

  // ----- one call -----

  datatype Claim = Fresh | Replay | Conflict

  function ClaimOf(x: Setup, commands: map<string, CommandRecord>, commandID: string, entry: CommandRecord): Claim
  {
    if commandID !in commands then Fresh
    else if x.allowManifestToDisclosureCollision && commands[commandID].purpose == ManifestClosurePlan
            && entry.purpose == ArtifactDisclosureVerify then Fresh
    else if commands[commandID] != entry then Conflict
    else Replay
  }

  function ClaimFor(x: Setup, s: SourceState, call: Call): Claim
  {
    ClaimOf(x, s.commands, CommandOf(call), LedgerEntry(call))
  }

  /** The stored receipt a replay of this stage answers with; disclosure receipts carry no status. */
  function ReplayOf(s: SourceState, call: Call): Outcome
  {
    var id := CommandOf(call);
    match call
    case PlanCall(_, _, _) =>
      if id in s.planCommands then Answered(PlanReceipt(s.planCommands[id].(status := Replayed))) else BlankReplay
    case RetainCall(_, _, _) =>
      if id in s.candidates then Answered(RetentionReceipt(s.candidates[id].(status := Replayed))) else BlankReplay
    case DiscloseCall(_, _, _) =>
      if id in s.disclosures then Answered(DisclosureReceipt(s.disclosures[id].receipt)) else BlankReplay
    case PublishCall(_, _) =>
      if id in s.publications then Answered(PublicationReceipt(s.publications[id].(status := Replayed)))
      else BlankReplay
  }

  function Claimed(s: SourceState, call: Call): SourceState
  {
    s.(commands := s.commands[CommandOf(call) := LedgerEntry(call)])
  }

  /** A call that passed its guards and claimed its command. */
  function Perform(x: Setup, s: SourceState, call: Call): (SourceState, Outcome)
    requires call.RetainCall? ==> call.retainRequest.closurePlanID in s.plansByID
    requires call.DiscloseCall? ==> call.discloseRequest.retentionReceiptID in s.retained
  {
    match call
    case PlanCall(_, request, _) =>
      (match PlanFor(x, request)
       case None => (s, Panicked)
       case Some(plan) =>
         var receipt := PlannedReceipt(request, plan);
         (s.(plansByID := s.plansByID[plan.closurePlanID := plan],
             planCommands := s.planCommands[request.commandID := receipt]),
          Answered(PlanReceipt(receipt))))
    case RetainCall(_, request, files) =>
      var receipt := RetainedReceipt(x, request);
      var record := RetainedRecord(receipt, TransferDigestText(x.lib, files), s.plansByID[request.closurePlanID]);
      (s.(candidates := s.candidates[request.commandID := receipt],
          retained := s.retained[receipt.receiptID := record]),
       Answered(RetentionReceipt(receipt)))
    case DiscloseCall(_, request, files) =>
      var verdict :=
        Verdict(TransferDigestText(x.lib, files), s.retained[request.retentionReceiptID].transferDigest);
      var receipt := DisclosedReceipt(x, request, verdict);
      var record := DisclosureRecord(request, receipt);
      (s.(disclosures := s.disclosures[request.commandID := record],
          disclosureIDs := s.disclosureIDs[receipt.receiptID := record]),
       Answered(DisclosureReceipt(receipt)))
    case PublishCall(_, request) =>
      var receipt := PublishedReceipt(x, request);
      (s.(publications := s.publications[request.commandID := receipt]), Answered(PublicationReceipt(receipt)))
  }

  function Step(x: Setup, s: SourceState, call: Call): (SourceState, Outcome)
  {
    if !Admitted(x, s, call) then (s, Refused(InvalidGrant))
    else match ClaimFor(x, s, call)
    case Conflict => (s, Refused(SourceCommandConflict))
    case Replay => (s, ReplayOf(s, call))
    case Fresh =>
      if call.PublishCall? && !PublishPrepared(x, s.retained, s.disclosureIDs, call.publishRequest)
      then (s, Refused(InvalidGrant))
      else Perform(x, Claimed(s, call), call)
  }

  class ReferenceSourceProvider {
    const setup: Setup
    var plansByID: map<string, ClosurePlan>
    var planCommands: map<string, ClosurePlanReceipt>
    var commands: map<string, CommandRecord>
    var candidates: map<string, ArtifactRetentionReceipt>
    var retained: map<string, RetainedRecord>
    var publications: map<string, ArtifactPublicationReceipt>
    var disclosures: map<string, DisclosureRecord>
    var disclosureIDs: map<string, DisclosureRecord>

    function State(): SourceState
      reads this
    {
      SourceState(plansByID, planCommands, commands, candidates, retained, publications, disclosures, disclosureIDs)
    }

    constructor (setup: Setup)
      ensures this.setup == setup && State() == NOTHING
    {
      this.setup := setup;
      plansByID, planCommands, commands, candidates := map[], map[], map[], map[];
      retained, publications, disclosures, disclosureIDs := map[], map[], map[], map[];
    }

    method ClaimCommand(commandID: string, purpose: GrantPurpose, digest: string)
      returns (replayed: Result<bool, SourceError>)
      modifies this`commands
      ensures var claim := ClaimOf(setup, old(commands), commandID, CommandRecord(purpose, digest));
              && replayed == (match claim
                              case Fresh => Ok(false)
                              case Replay => Ok(true)
                              case Conflict => Err(SourceCommandConflict))
              && commands == if claim == Fresh then old(commands)[commandID := CommandRecord(purpose, digest)]
                             else old(commands)
    {
      if commandID in commands {
        var prior := commands[commandID];
        if setup.allowManifestToDisclosureCollision && prior.purpose == ManifestClosurePlan
           && purpose == ArtifactDisclosureVerify {
          commands := commands[commandID := CommandRecord(purpose, digest)];
          return Ok(false);
        }
        if prior.purpose != purpose || prior.digest != digest {
          return Err(SourceCommandConflict);
        }
        return Ok(true);
      }
      commands := commands[commandID := CommandRecord(purpose, digest)];
      return Ok(false);
    }

    method PlanManifestClosure(grant: OperationGrant, request: ManifestClosurePlanRequest, manifestBytes: string)
      returns (outcome: Outcome)
      modifies this
      ensures (State(), outcome) == Step(setup, old(State()), PlanCall(grant, request, manifestBytes))
    {
      hide PlanAdmitted, PlanFor;
      if !PlanAdmitted(setup, grant, request, manifestBytes) {
        return Refused(InvalidGrant);
      }
      var replayed := ClaimCommand(request.commandID, ManifestClosurePlan, request.typedPayloadDigest);
      if replayed.Err? {
        return Refused(replayed.error);
      }
      if replayed.value {
        if request.commandID !in planCommands {
          return BlankReplay;
        }
        var prior := planCommands[request.commandID];
        return Answered(PlanReceipt(prior.(status := Replayed)));
      }
      var plan := PlanFor(setup, request);
      if plan == None {
        return Panicked;
      }
      var receipt := PlannedReceipt(request, plan.value);
      plansByID := plansByID[plan.value.closurePlanID := plan.value];
      planCommands := planCommands[request.commandID := receipt];
      return Answered(PlanReceipt(receipt));
    }

    method ValidateAndRetainCandidate(grant: OperationGrant, request: CandidateClosureRetentionRequest,
                                      files: seq<CandidateSourceFile>)
      returns (outcome: Outcome)
      modifies this
      ensures (State(), outcome) == Step(setup, old(State()), RetainCall(grant, request, files))
    {
      hide ValidOperationGrant, GrantBindsCandidateRequest, ValidCandidateClosureInput, TransferDigest;
      if !RetainAdmitted(setup, plansByID, grant, request, files) {
        return Refused(InvalidGrant);
      }
      var plan := plansByID[request.closurePlanID];
      var replayed := ClaimCommand(request.commandID, CandidateValidateRetain, request.typedPayloadDigest);
      if replayed.Err? {
        return Refused(replayed.error);
      }
      if replayed.value {
        if request.commandID !in candidates {
          return BlankReplay;
        }
        var prior := candidates[request.commandID];
        return Answered(RetentionReceipt(prior.(status := Replayed)));
      }
      var digest := DigestCandidateTransferredFiles(setup.lib, files);
      var receipt := RetainedReceipt(setup, request);
      candidates := candidates[request.commandID := receipt];
      retained := retained[receipt.receiptID :=
        RetainedRecord(receipt, if digest == None then "" else digest.value, plan)];
      return Answered(RetentionReceipt(receipt));
    }

    method PublishArtifact(grant: OperationGrant, request: ArtifactPublicationRequest) returns (outcome: Outcome)
      modifies this
      ensures (State(), outcome) == Step(setup, old(State()), PublishCall(grant, request))
    {
      hide PublishAdmitted, PublishPrepared;
      if !PublishAdmitted(setup, grant, request) {
        return Refused(InvalidGrant);
      }
      if request.commandID in commands {
        var answered := ClaimCommand(request.commandID, ArtifactPublish, request.typedPayloadDigest);
        if answered.Err? {
          return Refused(answered.error);
        }
        if answered.value {
          if request.commandID !in publications {
            return BlankReplay;
          }
          var prior := publications[request.commandID];
          return Answered(PublicationReceipt(prior.(status := Replayed)));
        }
      }
      if !PublishPrepared(setup, retained, disclosureIDs, request) {
        return Refused(InvalidGrant);
      }
      var replayed := ClaimCommand(request.commandID, ArtifactPublish, request.typedPayloadDigest);
      match replayed {
        case Err(error) => return Refused(error);
        case Ok(again) => if again { return Panicked; }
      }
      var receipt := PublishedReceipt(setup, request);
      publications := publications[request.commandID := receipt];
      return Answered(PublicationReceipt(receipt));
    }

    method VerifyArtifactDisclosure(grant: OperationGrant, request: ArtifactDisclosureVerificationRequest,
                                    files: seq<CandidateSourceFile>)
      returns (outcome: Outcome)
      modifies this
      ensures (State(), outcome) == Step(setup, old(State()), DiscloseCall(grant, request, files))
    {
      hide ValidOperationGrant, GrantBindsDisclosureRequest, ValidArtifactDisclosureInput, TransferDigest;
      if !DiscloseAdmitted(setup, retained, grant, request, files) {
        return Refused(InvalidGrant);
      }
      var record := retained[request.retentionReceiptID];
      var replayed := ClaimCommand(request.commandID, ArtifactDisclosureVerify, request.typedPayloadDigest);
      if replayed.Err? {
        return Refused(replayed.error);
      }
      if replayed.value {
        if request.commandID !in disclosures {
          return BlankReplay;
        }
        return Answered(DisclosureReceipt(disclosures[request.commandID].receipt));
      }
      var publicDigest := DigestCandidateTransferredFiles(setup.lib, files);
      var verdict := Mismatched;
      if (if publicDigest == None then "" else publicDigest.value) == record.transferDigest {
        verdict := Matched;
      }
      var receipt := DisclosedReceipt(setup, request, verdict);
      var disclosed := DisclosureRecord(request, receipt);
      disclosures := disclosures[request.commandID := disclosed];
      disclosureIDs := disclosureIDs[receipt.receiptID := disclosed];
      return Answered(DisclosureReceipt(receipt));
    }
  }
}
