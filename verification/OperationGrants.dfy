/** Operation grants: one token authorises one exact operation. */
module OperationGrants {
  import opened Primitives
  import opened ContractTypes
  import opened SourceOperations
  import opened Execution

  datatype GrantPurpose =
    | ManifestClosurePlan | CandidateValidateRetain | ArtifactPublish | ArtifactDisclosureVerify
    | ContestLaunch | ContestStarted | ContestResultSubmit
    | UnknownPurpose(text: string)

  const TOKEN_TYPE_ACCESS_JWT := "at+jwt"

  const RAW_TRANSPORT_DOMAIN := "competios.raw-transport-body.v1"

  datatype OperationGrant = OperationGrant(
    issuer: string, subject: string, audience: string, tokenType: string, scope: string, purpose: GrantPurpose,
    keyID: string, tokenID: string, issuedAt: Time, notBefore: Time, expiresAt: Time,
    providerID: string, adapterID: string, competitionID: string, contestID: string, requestID: string,
    providerInstanceID: string, commandID: string, typedPayloadDigest: string, transportContentType: string,
    rawTransportDigest: string, method_: string, resource: string,
    participantID: string, participantVersionID: string, repositoryNodeID: string, commitOID: string,
    manifestPath: string, manifestEntryKind: string, rawManifestBytesDigest: string, manifestByteLimit: uint64,
    closurePlanID: string, closurePlanDigest: string, candidateTransferredBytesDigest: string,
    publicCandidateTransferredBytesDigest: string, aggregateByteLimit: uint64, retentionReceiptID: string,
    artifactDigest: string, disclosureReceiptID: string, disclosureRequestDigest: string)

  datatype OperationGrantRequest = OperationGrantRequest(
    purpose: GrantPurpose,
    providerID: string, adapterID: string, competitionID: string, contestID: string, requestID: string,
    providerInstanceID: string, commandID: string, typedPayloadDigest: string, transportContentType: string,
    rawTransportDigest: string, method_: string, resource: string,
    participantID: string, participantVersionID: string, repositoryNodeID: string, commitOID: string,
    manifestPath: string, manifestEntryKind: string, rawManifestBytesDigest: string, manifestByteLimit: uint64,
    closurePlanID: string, closurePlanDigest: string, candidateTransferredBytesDigest: string,
    publicCandidateTransferredBytesDigest: string, aggregateByteLimit: uint64, retentionReceiptID: string,
    artifactDigest: string, disclosureReceiptID: string, disclosureRequestDigest: string)

  /** The stable route facts; token identity and times stay outside. */
  datatype OperationRouteBinding = OperationRouteBinding(
    issuer: string, subject: string, audience: string, tokenType: string, scope: string, purpose: GrantPurpose,
    providerID: string, adapterID: string, transportContentType: string, rawTransportDigest: string,
    method_: string, resource: string)

  function GrantScopeForPurpose(purpose: GrantPurpose): string
  {
    match purpose
    case ManifestClosurePlan => "participant.version.manifest.plan"
    case CandidateValidateRetain => "participant.version.validate-and-retain"
    case ArtifactPublish => "participant.version.publish"
    case ArtifactDisclosureVerify => "participant.version.disclosure.match"
    case ContestLaunch => "competition.contest.launch"
    case ContestStarted => "competition.contest.started"
    case ContestResultSubmit => "competition.contest.result.submit"
    case UnknownPurpose(_) => ""
  }

  // ----- validity -----

  predicate GrantEnvelopeValid(g: OperationGrant)
  {
    && g.issuer != "" && g.subject != "" && g.audience != "" && g.tokenType == TOKEN_TYPE_ACCESS_JWT
    && g.scope != "" && g.purpose != UnknownPurpose("") && g.keyID != "" && g.tokenID != ""
    && g.issuedAt != ZERO_TIME && g.notBefore != ZERO_TIME && g.expiresAt != ZERO_TIME
    && g.issuedAt <= g.notBefore < g.expiresAt
    && GrantScopeForPurpose(g.purpose) == g.scope
  }

  predicate OperationFactsValid(r: OperationGrantRequest)
  {
    && r.providerID != "" && r.adapterID != "" && r.commandID != "" && ValidSHA256Digest(r.typedPayloadDigest)
    && r.transportContentType != "" && ValidSHA256Digest(r.rawTransportDigest) && r.method_ != ""
    && r.resource != ""
  }

  predicate HasExecutionBinding(r: OperationGrantRequest)
  {
    r.competitionID != "" || r.contestID != "" || r.requestID != "" || r.providerInstanceID != ""
  }

  predicate NoManifestFields(r: OperationGrantRequest)
  {
    r.manifestPath == "" && r.manifestEntryKind == "" && r.rawManifestBytesDigest == "" && r.manifestByteLimit == 0
  }

  predicate NoPlanFields(r: OperationGrantRequest) { r.closurePlanID == "" && r.closurePlanDigest == "" }

  predicate NoReceiptFields(r: OperationGrantRequest)
  {
    && r.retentionReceiptID == "" && r.artifactDigest == "" && r.disclosureReceiptID == ""
    && r.disclosureRequestDigest == ""
  }

  predicate NoSourceFields(r: OperationGrantRequest)
  {
    && r.participantID == "" && r.participantVersionID == "" && r.repositoryNodeID == "" && r.commitOID == ""
    && NoManifestFields(r) && NoPlanFields(r) && r.candidateTransferredBytesDigest == ""
    && r.publicCandidateTransferredBytesDigest == "" && r.aggregateByteLimit == 0 && NoReceiptFields(r)
  }

  predicate NamesParticipantVersion(r: OperationGrantRequest)
  {
    !HasExecutionBinding(r) && r.participantID != "" && r.participantVersionID != ""
  }

  predicate NamesSourceCommit(r: OperationGrantRequest)
  {
    NamesParticipantVersion(r) && r.repositoryNodeID != "" && ValidSourceObjectID(r.commitOID)
  }

  /** The fields each purpose must carry, and must not carry. */
  predicate PurposeFieldsValid(r: OperationGrantRequest)
  {
    match r.purpose
    case ManifestClosurePlan =>
      && NamesSourceCommit(r) && r.manifestPath != "" && r.manifestEntryKind == SOURCE_ENTRY_REGULAR
      && ValidSHA256Digest(r.rawManifestBytesDigest) && r.manifestByteLimit != 0 && NoPlanFields(r)
      && r.candidateTransferredBytesDigest == "" && r.publicCandidateTransferredBytesDigest == ""
      && r.aggregateByteLimit == 0 && NoReceiptFields(r)
    case CandidateValidateRetain =>
      && NamesSourceCommit(r) && NoManifestFields(r) && r.closurePlanID != ""
      && ValidSHA256Digest(r.closurePlanDigest) && ValidSHA256Digest(r.candidateTransferredBytesDigest)
      && r.publicCandidateTransferredBytesDigest == "" && r.aggregateByteLimit != 0 && NoReceiptFields(r)
    case ArtifactPublish =>
      && NamesParticipantVersion(r) && r.repositoryNodeID == "" && r.commitOID == "" && NoManifestFields(r)
      && NoPlanFields(r) && r.candidateTransferredBytesDigest == ""
      && r.publicCandidateTransferredBytesDigest == "" && r.aggregateByteLimit == 0
      && r.retentionReceiptID != "" && ValidSHA256Digest(r.artifactDigest)
      && r.disclosureReceiptID != "" && ValidSHA256Digest(r.disclosureRequestDigest)
    case ArtifactDisclosureVerify =>
      && NamesSourceCommit(r) && NoManifestFields(r) && r.closurePlanID != ""
      && ValidSHA256Digest(r.closurePlanDigest) && r.candidateTransferredBytesDigest == ""
      && ValidSHA256Digest(r.publicCandidateTransferredBytesDigest) && r.aggregateByteLimit != 0
      && r.retentionReceiptID != "" && ValidSHA256Digest(r.artifactDigest)
      && r.disclosureReceiptID == "" && r.disclosureRequestDigest == ""
    case ContestLaunch =>
      && r.competitionID != "" && r.contestID != "" && r.requestID != "" && r.providerInstanceID == ""
      && NoSourceFields(r)
    case ContestStarted | ContestResultSubmit =>
      && r.competitionID != "" && r.contestID != "" && r.requestID != "" && r.providerInstanceID != ""
      && NoSourceFields(r)
    case UnknownPurpose(_) => false
  }

  function RequestedOperation(g: OperationGrant): OperationGrantRequest
  {
    OperationGrantRequest(
      purpose := g.purpose, providerID := g.providerID, adapterID := g.adapterID,
      competitionID := g.competitionID, contestID := g.contestID, requestID := g.requestID,
      providerInstanceID := g.providerInstanceID, commandID := g.commandID,
      typedPayloadDigest := g.typedPayloadDigest, transportContentType := g.transportContentType,
      rawTransportDigest := g.rawTransportDigest, method_ := g.method_, resource := g.resource,
      participantID := g.participantID, participantVersionID := g.participantVersionID,
      repositoryNodeID := g.repositoryNodeID, commitOID := g.commitOID, manifestPath := g.manifestPath,
      manifestEntryKind := g.manifestEntryKind, rawManifestBytesDigest := g.rawManifestBytesDigest,
      manifestByteLimit := g.manifestByteLimit, closurePlanID := g.closurePlanID,
      closurePlanDigest := g.closurePlanDigest,
      candidateTransferredBytesDigest := g.candidateTransferredBytesDigest,
      publicCandidateTransferredBytesDigest := g.publicCandidateTransferredBytesDigest,
      aggregateByteLimit := g.aggregateByteLimit, retentionReceiptID := g.retentionReceiptID,
      artifactDigest := g.artifactDigest, disclosureReceiptID := g.disclosureReceiptID,
      disclosureRequestDigest := g.disclosureRequestDigest)
  }

  predicate ValidOperationGrant(g: OperationGrant)
  {
    var r := RequestedOperation(g);
    GrantEnvelopeValid(g) && OperationFactsValid(r) && PurposeFieldsValid(r)
  }

  /** The grant an issuer builds around a request; the same fields are used to check a request. */
  function AssembleGrant(issuer: string, subject: string, audience: string, keyID: string, tokenID: string,
                         issuedAt: Time, lifetime: int, r: OperationGrantRequest): OperationGrant
  {
    OperationGrant(
      issuer := issuer, subject := subject, audience := audience, tokenType := TOKEN_TYPE_ACCESS_JWT,
      scope := GrantScopeForPurpose(r.purpose), purpose := r.purpose, keyID := keyID, tokenID := tokenID,
      issuedAt := issuedAt, notBefore := issuedAt, expiresAt := issuedAt + lifetime,
      providerID := r.providerID, adapterID := r.adapterID, competitionID := r.competitionID,
      contestID := r.contestID, requestID := r.requestID, providerInstanceID := r.providerInstanceID,
      commandID := r.commandID, typedPayloadDigest := r.typedPayloadDigest,
      transportContentType := r.transportContentType, rawTransportDigest := r.rawTransportDigest,
      method_ := r.method_, resource := r.resource, participantID := r.participantID,
      participantVersionID := r.participantVersionID, repositoryNodeID := r.repositoryNodeID,
      commitOID := r.commitOID, manifestPath := r.manifestPath, manifestEntryKind := r.manifestEntryKind,
      rawManifestBytesDigest := r.rawManifestBytesDigest, manifestByteLimit := r.manifestByteLimit,
      closurePlanID := r.closurePlanID, closurePlanDigest := r.closurePlanDigest,
      candidateTransferredBytesDigest := r.candidateTransferredBytesDigest,
      publicCandidateTransferredBytesDigest := r.publicCandidateTransferredBytesDigest,
      aggregateByteLimit := r.aggregateByteLimit, retentionReceiptID := r.retentionReceiptID,
      artifactDigest := r.artifactDigest, disclosureReceiptID := r.disclosureReceiptID,
      disclosureRequestDigest := r.disclosureRequestDigest)
  }

  // 1970-01-01T00:00:01Z, the instant the request check uses.
  const CHECK_TIME: Time := 62_135_596_801 * SECOND

  predicate ValidOperationGrantRequest(r: OperationGrantRequest)
  {
    ValidOperationGrant(AssembleGrant("issuer", "subject", "audience", "key", "token", CHECK_TIME, 60 * SECOND, r))
  }

  predicate ValidIssuedOperationGrantForRequest(g: OperationGrant, r: OperationGrantRequest)
  {
    && ValidOperationGrant(g) && ValidOperationGrantRequest(r)
    && g.scope == GrantScopeForPurpose(r.purpose) && RequestedOperation(g) == r
  }

  // ----- routes and operation-specific checks -----

  predicate RouteShape(route: OperationRouteBinding)
  {
    && route.issuer != "" && route.subject != "" && route.audience != "" && route.tokenType != ""
    && route.scope != "" && route.purpose != UnknownPurpose("") && route.providerID != "" && route.adapterID != ""
    && route.transportContentType != "" && ValidSHA256Digest(route.rawTransportDigest) && route.method_ != ""
    && route.resource != ""
  }

  predicate ValidRoute(g: OperationGrant, route: OperationRouteBinding)
  {
    && RouteShape(route)
    && g.issuer == route.issuer && g.subject == route.subject && g.audience == route.audience
    && g.tokenType == route.tokenType && g.scope == route.scope && g.purpose == route.purpose
    && g.providerID == route.providerID && g.adapterID == route.adapterID
    && g.transportContentType == route.transportContentType && g.rawTransportDigest == route.rawTransportDigest
    && g.method_ == route.method_ && g.resource == route.resource
  }

  predicate GrantBindsManifestRequest(lib: Library, g: OperationGrant, route: OperationRouteBinding,
                                      request: ManifestClosurePlanRequest)
  {
    && ValidOperationGrant(g) && ValidManifestClosurePlanRequest(lib, request) && ValidRoute(g, route)
    && g.purpose == ManifestClosurePlan
    && g.providerID == request.providerID && g.adapterID == request.adapterID && g.commandID == request.commandID
    && g.typedPayloadDigest == request.typedPayloadDigest && g.participantID == request.participantID
    && g.participantVersionID == request.participantVersionID && g.repositoryNodeID == request.repositoryNodeID
    && g.commitOID == request.commitOID && g.manifestPath == request.manifestPath
    && g.manifestEntryKind == request.manifestEntryKind
    && g.rawManifestBytesDigest == request.rawManifestBytesDigest && g.manifestByteLimit == request.manifestByteLimit
  }

  predicate GrantBindsCandidateRequest(lib: Library, g: OperationGrant, route: OperationRouteBinding,
                                       request: CandidateClosureRetentionRequest)
  {
    && ValidOperationGrant(g) && ValidCandidateClosureRetentionRequest(lib, request) && ValidRoute(g, route)
    && g.purpose == CandidateValidateRetain
    && g.providerID == request.providerID && g.adapterID == request.adapterID && g.commandID == request.commandID
    && g.typedPayloadDigest == request.typedPayloadDigest && g.participantID == request.participantID
    && g.participantVersionID == request.participantVersionID && g.repositoryNodeID == request.repositoryNodeID
    && g.commitOID == request.commitOID && g.closurePlanID == request.closurePlanID
    && g.closurePlanDigest == request.closurePlanDigest
    && g.candidateTransferredBytesDigest == request.candidateTransferredBytesDigest
    && g.aggregateByteLimit == request.aggregateByteLimit
  }

  predicate GrantBindsPublicationRequest(lib: Library, g: OperationGrant, route: OperationRouteBinding,
                                         request: ArtifactPublicationRequest)
  {
    && ValidOperationGrant(g) && ValidArtifactPublicationRequest(lib, request) && ValidRoute(g, route)
    && g.purpose == ArtifactPublish
    && g.providerID == request.providerID && g.adapterID == request.adapterID && g.commandID == request.commandID
    && g.typedPayloadDigest == request.typedPayloadDigest && g.participantID == request.participantID
    && g.participantVersionID == request.participantVersionID && g.retentionReceiptID == request.retentionReceiptID
    && g.artifactDigest == request.artifactDigest && g.disclosureReceiptID == request.disclosureReceiptID
    && g.disclosureRequestDigest == request.disclosureRequestDigest
  }

  predicate GrantBindsDisclosureRequest(lib: Library, g: OperationGrant, route: OperationRouteBinding,
                                        request: ArtifactDisclosureVerificationRequest)
  {
    && ValidOperationGrant(g) && ValidArtifactDisclosureVerificationRequest(lib, request) && ValidRoute(g, route)
    && g.purpose == ArtifactDisclosureVerify
    && g.providerID == request.providerID && g.adapterID == request.adapterID && g.commandID == request.commandID
    && g.typedPayloadDigest == request.typedPayloadDigest && g.participantID == request.participantID
    && g.participantVersionID == request.participantVersionID && g.repositoryNodeID == request.repositoryNodeID
    && g.commitOID == request.commitOID && g.closurePlanID == request.closurePlanID
    && g.closurePlanDigest == request.closurePlanDigest
    && g.publicCandidateTransferredBytesDigest == request.publicCandidateTransferredBytesDigest
    && g.aggregateByteLimit == request.aggregateByteLimit && g.retentionReceiptID == request.retentionReceiptID
    && g.artifactDigest == request.artifactDigest
  }

  function EventGrantPurpose(kind: EventKind): GrantPurpose
  {
    match kind
    case Started => ContestStarted
    case Completed | Failed | Cancelled => ContestResultSubmit
    case UnknownEventKind(_) => UnknownPurpose("")
  }

  predicate ValidEventGrantForEvent(lib: Library, g: OperationGrant, route: OperationRouteBinding,
                                    event: ExecutionEvent)
  {
    && ValidOperationGrant(g) && ValidExecutionEvent(lib, event) && ValidRoute(g, route)
    && g.providerID == event.providerID && g.adapterID == event.adapterID
    && g.competitionID == event.competitionID && g.contestID == event.contestID && g.requestID == event.requestID
    && g.providerInstanceID == event.providerInstanceID && g.commandID == event.commandID
    && g.typedPayloadDigest == event.typedPayloadDigest
    && g.purpose == EventGrantPurpose(event.kind) && g.scope == GrantScopeForPurpose(EventGrantPurpose(event.kind))
  }

  // ----- properties -----

  /** What decides the validity of a grant assembled from a request. */
  lemma AssembledGrantValidity(issuer: string, subject: string, audience: string, keyID: string, tokenID: string,
                               issuedAt: Time, lifetime: int, r: OperationGrantRequest)
    requires issuer != "" && subject != "" && audience != "" && lifetime > 0
    ensures var g := AssembleGrant(issuer, subject, audience, keyID, tokenID, issuedAt, lifetime, r);
            && RequestedOperation(g) == r
            && (ValidOperationGrant(g)
                <==> && keyID != "" && tokenID != "" && issuedAt != ZERO_TIME && issuedAt + lifetime != ZERO_TIME
                     && OperationFactsValid(r) && PurposeFieldsValid(r))
  {
    hide ValidSHA256Digest, ValidSourceObjectID, OperationFactsValid;
    if PurposeFieldsValid(r) {
      assert GrantScopeForPurpose(r.purpose) != "";
    }
  }

  /** A request is accepted exactly when some valid grant requests it. */
  lemma RequestValidExactlyWhenGrantable(r: OperationGrantRequest)
    ensures ValidOperationGrantRequest(r) <==> exists g :: ValidOperationGrant(g) && RequestedOperation(g) == r
  {
    hide OperationFactsValid, PurposeFieldsValid;
    AssembledGrantValidity("issuer", "subject", "audience", "key", "token", CHECK_TIME, 60 * SECOND, r);
    if ValidOperationGrantRequest(r) {
      var g := AssembleGrant("issuer", "subject", "audience", "key", "token", CHECK_TIME, 60 * SECOND, r);
      assert ValidOperationGrant(g) && RequestedOperation(g) == r;
    }
  }

  predicate EventPurpose(purpose: GrantPurpose) { purpose == ContestStarted || purpose == ContestResultSubmit }

  function Relabel(g: OperationGrant, purpose: GrantPurpose): OperationGrant
  {
    g.(purpose := purpose, scope := GrantScopeForPurpose(purpose))
  }

  lemma EmptyIsNoDigest()
    ensures !ValidSHA256Digest("") && !ValidSourceObjectID("")
  {
  }

  /** A valid grant moved to another purpose is valid exactly within the pair of event purposes. */
  lemma RelabelledGrantValidity(g: OperationGrant, purpose: GrantPurpose)
    requires ValidOperationGrant(g) && purpose != g.purpose
    ensures ValidOperationGrant(Relabel(g, purpose)) <==> EventPurpose(g.purpose) && EventPurpose(purpose)
  {
    hide ValidSHA256Digest, ValidSourceObjectID;
    EmptyIsNoDigest();
    if EventPurpose(g.purpose) && EventPurpose(purpose) {
      assert GrantScopeForPurpose(purpose) != "";
    }
  }

  /** For that pair, no event accepts both labels, whatever the routes. */
  lemma NoEventAcceptsBothLabels(lib: Library, g: OperationGrant, purpose: GrantPurpose,
                                 route: OperationRouteBinding, route': OperationRouteBinding, event: ExecutionEvent)
    requires purpose != g.purpose
    ensures !(ValidEventGrantForEvent(lib, g, route, event)
              && ValidEventGrantForEvent(lib, Relabel(g, purpose), route', event))
  {
    hide ValidOperationGrant, ValidExecutionEvent, ValidRoute, GrantScopeForPurpose;
  }
}
