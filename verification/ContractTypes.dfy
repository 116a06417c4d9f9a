/** The records that cross the boundary between Competios and a game provider. */
module ContractTypes {
  import opened Primitives

  // ----- staged source operations -----

  const SOURCE_ENTRY_REGULAR := "regular"
  const SOURCE_ENTRY_SYMLINK := "symlink"
  const SOURCE_ENTRY_SUBMODULE := "submodule"

  datatype ManifestClosurePlanRequest = ManifestClosurePlanRequest(
    providerID: string, adapterID: string, commandID: string, participantID: string,
    participantVersionID: string, repositoryNodeID: string, commitOID: string, manifestPath: string,
    manifestEntryKind: string, rawManifestBytesDigest: string, manifestByteLimit: uint64,
    typedPayloadDigest: string)

  datatype PlannedSourceFile = PlannedSourceFile(canonicalPath: string, entryKind: string, byteLimit: uint64)

  datatype ClosurePlan = ClosurePlan(
    closurePlanID: string, providerID: string, adapterID: string, participantID: string,
    participantVersionID: string, repositoryNodeID: string, commitOID: string, manifestPath: string,
    manifestEntryKind: string, manifestRequestDigest: string, rawManifestBytesDigest: string,
    files: seq<PlannedSourceFile>, aggregateByteLimit: uint64, closurePlanDigest: string)

  datatype ReceiptStatus = Accepted | Replayed

  datatype ClosurePlanReceipt = ClosurePlanReceipt(
    providerID: string, adapterID: string, commandID: string, participantID: string,
    participantVersionID: string, requestPayloadDigest: string, plan: ClosurePlan, status: ReceiptStatus)

  datatype CandidateSourceFile = CandidateSourceFile(canonicalPath: string, entryKind: string, bytes: string)

  datatype CandidateClosureRetentionRequest = CandidateClosureRetentionRequest(
    providerID: string, adapterID: string, commandID: string, participantID: string,
    participantVersionID: string, repositoryNodeID: string, commitOID: string, closurePlanID: string,
    closurePlanDigest: string, candidateTransferredBytesDigest: string, aggregateByteLimit: uint64,
    typedPayloadDigest: string)

  datatype ArtifactRetentionReceipt = ArtifactRetentionReceipt(
    receiptID: string, providerID: string, adapterID: string, commandID: string, participantID: string,
    participantVersionID: string, closurePlanID: string, closurePlanDigest: string,
    candidateRequestDigest: string, artifactDigest: string, status: ReceiptStatus)

  datatype ArtifactDisclosureVerificationRequest = ArtifactDisclosureVerificationRequest(
    providerID: string, adapterID: string, commandID: string, participantID: string,
    participantVersionID: string, repositoryNodeID: string, commitOID: string, closurePlanID: string,
    closurePlanDigest: string, aggregateByteLimit: uint64, retentionReceiptID: string, artifactDigest: string,
    publicCandidateTransferredBytesDigest: string, typedPayloadDigest: string)

  datatype DisclosureVerdict = Matched | Mismatched

  datatype ArtifactDisclosureVerificationReceipt = ArtifactDisclosureVerificationReceipt(
    receiptID: string, providerID: string, adapterID: string, commandID: string, participantID: string,
    participantVersionID: string, retentionReceiptID: string, artifactDigest: string,
    verificationRequestDigest: string, verdict: DisclosureVerdict, verifiedAt: Time)

  datatype ArtifactPublicationRequest = ArtifactPublicationRequest(
    providerID: string, adapterID: string, commandID: string, participantID: string,
    participantVersionID: string, retentionReceiptID: string, artifactDigest: string,
    disclosureReceiptID: string, disclosureRequestDigest: string, typedPayloadDigest: string)

  datatype ArtifactPublicationReceipt = ArtifactPublicationReceipt(
    receiptID: string, providerID: string, adapterID: string, commandID: string, participantID: string,
    participantVersionID: string, retentionReceiptID: string, disclosureReceiptID: string,
    disclosureRequestDigest: string, publicationRequestDigest: string, artifactDigest: string,
    publishedAt: Time, publicReference: string, status: ReceiptStatus)

  // ----- executions -----

  datatype ProfileKind = ProviderExecutedKind | ParticipantScheduledKind | UnknownProfileKind(text: string)

  datatype ExecutionSlot = ExecutionSlot(
    ordinal: uint16, entryID: string, participantID: string, participantVersionID: string, artifactDigest: string)

  datatype ProviderConfiguration = ProviderConfiguration(version: string, data: string)

  datatype ProviderExecutedProfile = ProviderExecutedProfile(
    slots: seq<ExecutionSlot>, configuration: ProviderConfiguration, notBefore: Time, deadline: Time)

  datatype ScheduledSlot = ScheduledSlot(
    ordinal: uint16, entryID: string, participants: seq<string>, displayName: string)

  datatype ParticipantScheduledProfile = ParticipantScheduledProfile(startsAt: Time, slots: seq<ScheduledSlot>)

  datatype ExecutionProfile = ExecutionProfile(
    kind: ProfileKind, providerExecuted: Option<ProviderExecutedProfile>,
    participantScheduled: Option<ParticipantScheduledProfile>)

  datatype ExecutionRequest = ExecutionRequest(
    id: string, providerID: string, adapterID: string, competitionID: string, contestID: string,
    commandID: string, gameID: string, rulesetVersion: string, profile: ExecutionProfile,
    requestedPublicArtifacts: seq<string>, callbackResource: string, typedPayloadDigest: string)

  datatype ExecutionReceipt = ExecutionReceipt(
    requestID: string, commandID: string, providerID: string, adapterID: string,
    providerInstanceID: string, status: ReceiptStatus, safeReferences: seq<string>)

  datatype EventKind = Started | Completed | Failed | Cancelled | UnknownEventKind(text: string)

  datatype PlacementStatus = Finished | Forfeited | Disqualified | DidNotFinish | UnknownStatus(text: string)

  datatype Placement = Placement(slotOrdinal: uint16, entryID: string, rank: uint16, status: PlacementStatus)

  datatype ReplayState = ReplayAvailable | ReplayProcessing | ReplayUnavailable | UnknownReplayState(text: string)

  datatype TerminalReplay = TerminalReplay(state: ReplayState, reference: string)

  datatype RecordedProvenance = RecordedProvenance(
    participantArtifactDigests: seq<string>, providerConfigurationDigest: string, runtimeDigest: string,
    rulesDigest: string, limitProfileDigest: string, seedDigest: string, eventLogDigest: string,
    executionPayloadDigest: string)

  datatype ScheduledEvidence = ScheduledEvidence(terminalStateDigest: string, eventLogDigest: string)

  datatype CompletionEvidence = CompletionEvidence(
    profileKind: ProfileKind, replay: TerminalReplay, providerExecuted: Option<RecordedProvenance>,
    participantScheduled: Option<ScheduledEvidence>)

  datatype ExecutionResult = ExecutionResult(placements: seq<Placement>, evidence: CompletionEvidence)

  datatype FailureEvidence = FailureEvidence(
    runtimeDigest: string, eventLogDigest: string, executionPayloadDigest: string, replay: Option<TerminalReplay>)

  datatype ExecutionFailure = ExecutionFailure(
    code: string, adjudicationCode: string, evidence: Option<FailureEvidence>)

  datatype ExecutionEvent = ExecutionEvent(
    id: string, kind: EventKind, competitionID: string, contestID: string, requestID: string,
    providerID: string, adapterID: string, providerInstanceID: string, commandID: string, occurredAt: Time,
    result: Option<ExecutionResult>, failure: Option<ExecutionFailure>, typedPayloadDigest: string)

  // ----- library code the contract calls -----

  /** What `json.Marshal` is given: a record, or a payload (the record with its own digest cleared). */
  datatype JsonValue =
    | ManifestRequestJson(manifestRequest: ManifestClosurePlanRequest)
    | ClosurePlanJson(plan: ClosurePlan)
    | CandidateRequestJson(candidateRequest: CandidateClosureRetentionRequest)
    | DisclosureRequestJson(disclosureRequest: ArtifactDisclosureVerificationRequest)
    | PublicationRequestJson(publicationRequest: ArtifactPublicationRequest)
    | ExecutionRequestJson(executionRequest: ExecutionRequest)
    | ExecutionEventJson(executionEvent: ExecutionEvent)

  /** SHA-256, JSON encoding of records (which may fail), space trimming and URL checking: never
      interpreted. */
  datatype Library = Library(
    sha256: Sha256, marshal: JsonValue -> Option<string>, trimmed: string -> bool,
    validPublicReference: string -> bool)

  /** A library whose digests are all the same and whose encoder always succeeds. */
  function ConstantLibrary(): Library
  {
    Library((s: string) => seq(32, i => 'a'), (value: JsonValue) => Some("m"), (s: string) => true, (s: string) => true)
  }

  // ----- character classes -----

  predicate AllHex(text: string) { forall i | 0 <= i < |text| :: IsHexDigit(text[i]) }

  predicate ValidSourceObjectID(value: string)
  {
    || (|value| == 45 && value[..5] == "sha1:" && AllHex(value[5..]))
    || (|value| == 71 && value[..7] == "sha256:" && AllHex(value[7..]))
  }

  predicate ValidCode(value: string)
  {
    && value != "" && |value| <= 64 && 'a' <= value[0] <= 'z'
    && forall i | 0 <= i < |value| ::
         'a' <= value[i] <= 'z' || IsDigit(value[i]) || value[i] == '-' || value[i] == '.'
  }

  predicate ReferenceChars(suffix: string)
  {
    && suffix != "" && |suffix| <= 256
    && forall i | 0 <= i < |suffix| ::
         'a' <= suffix[i] <= 'z' || 'A' <= suffix[i] <= 'Z' || IsDigit(suffix[i]) || suffix[i] in "-._"
  }

  predicate ValidReplayReference(value: string)
  {
    |value| >= 7 && value[..7] == "replay:" && ReferenceChars(value[7..])
  }

  predicate ValidSafeReference(value: string)
  {
    |value| >= 13 && value[..13] == "safe:receipt:" && ReferenceChars(value[13..])
  }
}
