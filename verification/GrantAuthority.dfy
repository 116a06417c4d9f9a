/** For each operation there is one grant per route, key, token ID and window: the checks accept it and no other. */
module GrantAuthority {
  import opened Primitives
  import opened ContractTypes
  import opened CanonicalPath
  import opened SourceOperations
  import opened Execution
  import opened OperationGrants
  import opened Launches

  /** Key, token and window are named, and the window opens before it closes and not before the issue. */
  predicate Dated(g: OperationGrant)
  {
    && g.keyID != "" && g.tokenID != ""
    && g.issuedAt != 0 && g.notBefore != 0 && g.expiresAt != 0
    && g.issuedAt <= g.notBefore && g.notBefore < g.expiresAt
  }

  /** The route is fully named and is that of this purpose, scope, provider and adapter. */
  predicate RouteServes(route: OperationRouteBinding, purpose: GrantPurpose, scope: string, providerID: string,
                        adapterID: string)
  {
    && route.issuer != "" && route.subject != "" && route.audience != "" && route.tokenType == "at+jwt"
    && route.scope == scope && route.purpose == purpose
    && route.providerID == providerID && route.adapterID == adapterID && providerID != "" && adapterID != ""
    && route.transportContentType != "" && ValidSHA256Digest(route.rawTransportDigest)
    && route.method_ != "" && route.resource != ""
  }

  /** The grant of a route with nothing but its command and payload digest filled in. */
  function BareGrant(route: OperationRouteBinding, g: OperationGrant, commandID: string, digest: string)
    : OperationGrant
  {
    OperationGrant(
      issuer := route.issuer, subject := route.subject, audience := route.audience, tokenType := route.tokenType,
      scope := route.scope, purpose := route.purpose, keyID := g.keyID, tokenID := g.tokenID,
      issuedAt := g.issuedAt, notBefore := g.notBefore, expiresAt := g.expiresAt,
      providerID := route.providerID, adapterID := route.adapterID, competitionID := "", contestID := "",
      requestID := "", providerInstanceID := "", commandID := commandID, typedPayloadDigest := digest,
      transportContentType := route.transportContentType, rawTransportDigest := route.rawTransportDigest,
      method_ := route.method_, resource := route.resource, participantID := "", participantVersionID := "",
      repositoryNodeID := "", commitOID := "", manifestPath := "", manifestEntryKind := "",
      rawManifestBytesDigest := "", manifestByteLimit := 0, closurePlanID := "", closurePlanDigest := "",
      candidateTransferredBytesDigest := "", publicCandidateTransferredBytesDigest := "",
      aggregateByteLimit := 0, retentionReceiptID := "", artifactDigest := "", disclosureReceiptID := "",
      disclosureRequestDigest := "")
  }

  predicate IsPlanGrant(g: OperationGrant, route: OperationRouteBinding, r: ManifestClosurePlanRequest)
  {
    && Dated(g)
    && RouteServes(route, ManifestClosurePlan, "participant.version.manifest.plan", r.providerID, r.adapterID)
    && g == BareGrant(route, g, r.commandID, r.typedPayloadDigest).(
         participantID := r.participantID, participantVersionID := r.participantVersionID,
         repositoryNodeID := r.repositoryNodeID, commitOID := r.commitOID, manifestPath := r.manifestPath,
         manifestEntryKind := r.manifestEntryKind, rawManifestBytesDigest := r.rawManifestBytesDigest,
         manifestByteLimit := r.manifestByteLimit)
  }

  predicate IsRetainGrant(g: OperationGrant, route: OperationRouteBinding, r: CandidateClosureRetentionRequest)
  {
    && Dated(g)
    && RouteServes(route, CandidateValidateRetain, "participant.version.validate-and-retain", r.providerID, r.adapterID)
    && g == BareGrant(route, g, r.commandID, r.typedPayloadDigest).(
         participantID := r.participantID, participantVersionID := r.participantVersionID,
         repositoryNodeID := r.repositoryNodeID, commitOID := r.commitOID, closurePlanID := r.closurePlanID,
         closurePlanDigest := r.closurePlanDigest,
         candidateTransferredBytesDigest := r.candidateTransferredBytesDigest,
         aggregateByteLimit := r.aggregateByteLimit)
  }

  predicate IsDiscloseGrant(g: OperationGrant, route: OperationRouteBinding, r: ArtifactDisclosureVerificationRequest)
  {
    && Dated(g)
    && RouteServes(route, ArtifactDisclosureVerify, "participant.version.disclosure.match", r.providerID, r.adapterID)
    && g == BareGrant(route, g, r.commandID, r.typedPayloadDigest).(
         participantID := r.participantID, participantVersionID := r.participantVersionID,
         repositoryNodeID := r.repositoryNodeID, commitOID := r.commitOID, closurePlanID := r.closurePlanID,
         closurePlanDigest := r.closurePlanDigest,
         publicCandidateTransferredBytesDigest := r.publicCandidateTransferredBytesDigest,
         aggregateByteLimit := r.aggregateByteLimit, retentionReceiptID := r.retentionReceiptID,
         artifactDigest := r.artifactDigest)
  }

  predicate IsPublishGrant(g: OperationGrant, route: OperationRouteBinding, r: ArtifactPublicationRequest)
  {
    && Dated(g)
    && RouteServes(route, ArtifactPublish, "participant.version.publish", r.providerID, r.adapterID)
    && g == BareGrant(route, g, r.commandID, r.typedPayloadDigest).(
         participantID := r.participantID, participantVersionID := r.participantVersionID,
         retentionReceiptID := r.retentionReceiptID, artifactDigest := r.artifactDigest,
         disclosureReceiptID := r.disclosureReceiptID, disclosureRequestDigest := r.disclosureRequestDigest)
  }

  predicate IsLaunchGrant(g: OperationGrant, route: OperationRouteBinding, r: ExecutionRequest)
  {
    && Dated(g)
    && RouteServes(route, ContestLaunch, "competition.contest.launch", r.providerID, r.adapterID)
    && g == BareGrant(route, g, r.commandID, r.typedPayloadDigest).(
         competitionID := r.competitionID, contestID := r.contestID, requestID := r.id)
  }

  predicate IsEventGrant(g: OperationGrant, route: OperationRouteBinding, e: ExecutionEvent)
  {
    && Dated(g)
    && (if e.kind == Started
        then RouteServes(route, ContestStarted, "competition.contest.started", e.providerID, e.adapterID)
        else RouteServes(route, ContestResultSubmit, "competition.contest.result.submit", e.providerID, e.adapterID))
    && g == BareGrant(route, g, e.commandID, e.typedPayloadDigest).(
         competitionID := e.competitionID, contestID := e.contestID, requestID := e.requestID,
         providerInstanceID := e.providerInstanceID)
  }

  /** The manifest checks accept exactly the one grant. */
  lemma PlanGrantExactly(lib: Library, g: OperationGrant, route: OperationRouteBinding, r: ManifestClosurePlanRequest)
    requires ValidManifestClosurePlanRequest(lib, r)
    ensures GrantBindsManifestRequest(lib, g, route, r) <==> IsPlanGrant(g, route, r)
    ensures GrantBindsManifestRequest(lib, g, route, r) ==> ValidOperationGrant(g)
  {
    hide ValidSHA256Digest, ValidSourceObjectID, ValidCanonicalSourcePath, DigestJSON;
    EmptyPathIsNotCanonical(r.manifestPath);
  }

  /** The retention checks accept exactly the one grant. */
  lemma RetainGrantExactly(lib: Library, g: OperationGrant, route: OperationRouteBinding,
                           r: CandidateClosureRetentionRequest)
    requires ValidCandidateClosureRetentionRequest(lib, r)
    ensures GrantBindsCandidateRequest(lib, g, route, r) <==> IsRetainGrant(g, route, r)
  {
    hide ValidSHA256Digest, ValidSourceObjectID, DigestJSON;
  }

  /** The disclosure checks accept exactly the one grant. */
  lemma DiscloseGrantExactly(lib: Library, g: OperationGrant, route: OperationRouteBinding,
                             r: ArtifactDisclosureVerificationRequest)
    requires ValidArtifactDisclosureVerificationRequest(lib, r)
    ensures GrantBindsDisclosureRequest(lib, g, route, r) <==> IsDiscloseGrant(g, route, r)
  {
    hide ValidSHA256Digest, ValidSourceObjectID, DigestJSON;
  }

  /** The publication checks accept exactly the one grant. */
  lemma PublishGrantExactly(lib: Library, g: OperationGrant, route: OperationRouteBinding,
                            r: ArtifactPublicationRequest)
    requires ValidArtifactPublicationRequest(lib, r)
    ensures GrantBindsPublicationRequest(lib, g, route, r) <==> IsPublishGrant(g, route, r)
  {
    hide ValidSHA256Digest, ValidSourceObjectID, DigestJSON;
  }

  lemma ExecutionScopes(purpose: GrantPurpose)
    ensures GrantScopeForPurpose(purpose) != "" <==> !purpose.UnknownPurpose?
  {
  }

  /** An execution grant with its route: everything but the four execution names comes from the route. */
  lemma ExecutionGrantShape(g: OperationGrant, route: OperationRouteBinding)
    requires g.purpose in {ContestLaunch, ContestStarted, ContestResultSubmit}
    requires g.commandID != "" && ValidSHA256Digest(g.typedPayloadDigest)
    requires g.competitionID != "" && g.contestID != "" && g.requestID != ""
    requires g.providerInstanceID == "" <==> g.purpose == ContestLaunch
    ensures ValidOperationGrant(g) && ValidRoute(g, route)
       <==> && Dated(g)
            && RouteServes(route, g.purpose, GrantScopeForPurpose(g.purpose), g.providerID, g.adapterID)
            && g == BareGrant(route, g, g.commandID, g.typedPayloadDigest).(
                 competitionID := g.competitionID, contestID := g.contestID, requestID := g.requestID,
                 providerInstanceID := g.providerInstanceID)
  {
    hide ValidSHA256Digest, ValidSourceObjectID, GrantScopeForPurpose;
    ExecutionScopes(g.purpose);
  }

  lemma InstanceUnnamed(g: OperationGrant)
    requires g.purpose == ContestLaunch
    ensures ValidOperationGrant(g) ==> g.providerInstanceID == ""
  {
    hide GrantScopeForPurpose, ValidSHA256Digest;
  }

  /** The launch checks accept exactly the one grant. */
  lemma LaunchGrantExactly(lib: Library, g: OperationGrant, route: OperationRouteBinding, r: ExecutionRequest)
    requires ValidExecutionRequest(lib, r)
    ensures GrantBindsLaunchRequest(lib, g, route, r) <==> IsLaunchGrant(g, route, r)
  {
    hide ValidSHA256Digest, ValidExecutionProfile, ValidOperationGrant, ValidRoute, Dated;
    if g.purpose == ContestLaunch && g.commandID == r.commandID && g.typedPayloadDigest == r.typedPayloadDigest
       && g.competitionID == r.competitionID && g.contestID == r.contestID && g.requestID == r.id {
      InstanceUnnamed(g);
      if g.providerInstanceID == "" {
        ExecutionGrantShape(g, route);
      }
    }
  }

  lemma EventNames(lib: Library, e: ExecutionEvent)
    requires ValidExecutionEvent(lib, e)
    ensures e.competitionID != "" && e.contestID != "" && e.requestID != "" && e.providerInstanceID != ""
    ensures e.commandID != "" && ValidSHA256Digest(e.typedPayloadDigest) && !e.kind.UnknownEventKind?
  {
    hide ValidSHA256Digest, ValidCompletionEvidence;
  }

  /** The event checks accept exactly the one grant. */
  lemma EventGrantExactly(lib: Library, g: OperationGrant, route: OperationRouteBinding, e: ExecutionEvent)
    requires ValidExecutionEvent(lib, e)
    ensures ValidEventGrantForEvent(lib, g, route, e) <==> IsEventGrant(g, route, e)
  {
    hide ValidSHA256Digest, ValidExecutionEvent, ValidOperationGrant, ValidRoute, Dated;
    EventNames(lib, e);
    if g.purpose == EventGrantPurpose(e.kind) && g.commandID == e.commandID
       && g.typedPayloadDigest == e.typedPayloadDigest && g.competitionID == e.competitionID
       && g.contestID == e.contestID && g.requestID == e.requestID && g.providerInstanceID == e.providerInstanceID {
      ExecutionGrantShape(g, route);
    }
  }

  // ----- every valid grant -----

  /** The scope of each of the seven purposes. */
  function ScopeText(purpose: GrantPurpose): string
    requires !purpose.UnknownPurpose?
  {
    match purpose
    case ManifestClosurePlan => "participant.version.manifest.plan"
    case CandidateValidateRetain => "participant.version.validate-and-retain"
    case ArtifactPublish => "participant.version.publish"
    case ArtifactDisclosureVerify => "participant.version.disclosure.match"
    case ContestLaunch => "competition.contest.launch"
    case ContestStarted => "competition.contest.started"
    case ContestResultSubmit => "competition.contest.result.submit"
  }

  /** The route facts a grant itself carries. */
  function RouteOf(g: OperationGrant): OperationRouteBinding
  {
    OperationRouteBinding(
      issuer := g.issuer, subject := g.subject, audience := g.audience, tokenType := g.tokenType, scope := g.scope,
      purpose := g.purpose, providerID := g.providerID, adapterID := g.adapterID,
      transportContentType := g.transportContentType, rawTransportDigest := g.rawTransportDigest,
      method_ := g.method_, resource := g.resource)
  }

  /** The grant with nothing but its route, its command and its payload digest. */
  function Stripped(g: OperationGrant): OperationGrant { BareGrant(RouteOf(g), g, g.commandID, g.typedPayloadDigest) }

  /** The fields each purpose carries beyond that; all others are empty. */
  predicate CarriesPurposeFields(g: OperationGrant)
  {
    match g.purpose
    case ManifestClosurePlan =>
      && g.participantID != "" && g.participantVersionID != "" && g.repositoryNodeID != ""
      && ValidSourceObjectID(g.commitOID) && g.manifestPath != "" && g.manifestEntryKind == "regular"
      && ValidSHA256Digest(g.rawManifestBytesDigest) && g.manifestByteLimit > 0
      && g == Stripped(g).(
           participantID := g.participantID, participantVersionID := g.participantVersionID,
           repositoryNodeID := g.repositoryNodeID, commitOID := g.commitOID, manifestPath := g.manifestPath,
           manifestEntryKind := "regular", rawManifestBytesDigest := g.rawManifestBytesDigest,
           manifestByteLimit := g.manifestByteLimit)
    case CandidateValidateRetain =>
      && g.participantID != "" && g.participantVersionID != "" && g.repositoryNodeID != ""
      && ValidSourceObjectID(g.commitOID) && g.closurePlanID != "" && ValidSHA256Digest(g.closurePlanDigest)
      && ValidSHA256Digest(g.candidateTransferredBytesDigest) && g.aggregateByteLimit > 0
      && g == Stripped(g).(
           participantID := g.participantID, participantVersionID := g.participantVersionID,
           repositoryNodeID := g.repositoryNodeID, commitOID := g.commitOID, closurePlanID := g.closurePlanID,
           closurePlanDigest := g.closurePlanDigest,
           candidateTransferredBytesDigest := g.candidateTransferredBytesDigest,
           aggregateByteLimit := g.aggregateByteLimit)
    case ArtifactDisclosureVerify =>
      && g.participantID != "" && g.participantVersionID != "" && g.repositoryNodeID != ""
      && ValidSourceObjectID(g.commitOID) && g.closurePlanID != "" && ValidSHA256Digest(g.closurePlanDigest)
      && ValidSHA256Digest(g.publicCandidateTransferredBytesDigest) && g.aggregateByteLimit > 0
      && g.retentionReceiptID != "" && ValidSHA256Digest(g.artifactDigest)
      && g == Stripped(g).(
           participantID := g.participantID, participantVersionID := g.participantVersionID,
           repositoryNodeID := g.repositoryNodeID, commitOID := g.commitOID, closurePlanID := g.closurePlanID,
           closurePlanDigest := g.closurePlanDigest,
           publicCandidateTransferredBytesDigest := g.publicCandidateTransferredBytesDigest,
           aggregateByteLimit := g.aggregateByteLimit, retentionReceiptID := g.retentionReceiptID,
           artifactDigest := g.artifactDigest)
    case ArtifactPublish =>
      && g.participantID != "" && g.participantVersionID != "" && g.retentionReceiptID != ""
      && ValidSHA256Digest(g.artifactDigest) && g.disclosureReceiptID != ""
      && ValidSHA256Digest(g.disclosureRequestDigest)
      && g == Stripped(g).(
           participantID := g.participantID, participantVersionID := g.participantVersionID,
           retentionReceiptID := g.retentionReceiptID, artifactDigest := g.artifactDigest,
           disclosureReceiptID := g.disclosureReceiptID, disclosureRequestDigest := g.disclosureRequestDigest)
    case ContestLaunch =>
      && g.competitionID != "" && g.contestID != "" && g.requestID != ""
      && g == Stripped(g).(competitionID := g.competitionID, contestID := g.contestID, requestID := g.requestID)
    case ContestStarted | ContestResultSubmit =>
      && g.competitionID != "" && g.contestID != "" && g.requestID != "" && g.providerInstanceID != ""
      && g == Stripped(g).(competitionID := g.competitionID, contestID := g.contestID, requestID := g.requestID,
                           providerInstanceID := g.providerInstanceID)
    case UnknownPurpose(_) => false
  }

  lemma CommitFieldsExactly(g: OperationGrant)
    requires g.purpose in {ManifestClosurePlan, CandidateValidateRetain}
    ensures PurposeFieldsValid(RequestedOperation(g)) <==> CarriesPurposeFields(g)
  {
    hide ValidSHA256Digest, ValidSourceObjectID;
  }

  lemma ArtifactFieldsExactly(g: OperationGrant)
    requires g.purpose in {ArtifactDisclosureVerify, ArtifactPublish}
    ensures PurposeFieldsValid(RequestedOperation(g)) <==> CarriesPurposeFields(g)
  {
    hide ValidSHA256Digest, ValidSourceObjectID;
  }

  lemma ContestFieldsExactly(g: OperationGrant)
    requires g.purpose !in {ManifestClosurePlan, CandidateValidateRetain, ArtifactDisclosureVerify, ArtifactPublish}
    ensures PurposeFieldsValid(RequestedOperation(g)) <==> CarriesPurposeFields(g)
  {
    hide ValidSHA256Digest, ValidSourceObjectID;
  }

  lemma PurposeFieldsExactly(g: OperationGrant)
    ensures PurposeFieldsValid(RequestedOperation(g)) <==> CarriesPurposeFields(g)
  {
    hide PurposeFieldsValid, CarriesPurposeFields;
    if g.purpose in {ManifestClosurePlan, CandidateValidateRetain} {
      CommitFieldsExactly(g);
    } else if g.purpose in {ArtifactDisclosureVerify, ArtifactPublish} {
      ArtifactFieldsExactly(g);
    } else {
      ContestFieldsExactly(g);
    }
  }

  lemma ScopeExactly(purpose: GrantPurpose)
    requires !purpose.UnknownPurpose?
    ensures GrantScopeForPurpose(purpose) == ScopeText(purpose) != ""
  {
  }

  lemma UnknownCarriesNothing(g: OperationGrant)
    ensures CarriesPurposeFields(g) ==> !g.purpose.UnknownPurpose?
  {
    hide Stripped, ValidSHA256Digest, ValidSourceObjectID;
  }

  /** A grant is valid exactly when it is dated, its route facts serve its own purpose, its command and payload digest
      are given, and it carries the fields of its purpose and no others. */
  lemma GrantExactly(g: OperationGrant)
    ensures ValidOperationGrant(g)
       <==> && !g.purpose.UnknownPurpose? && Dated(g)
            && RouteServes(RouteOf(g), g.purpose, ScopeText(g.purpose), g.providerID, g.adapterID)
            && g.commandID != "" && ValidSHA256Digest(g.typedPayloadDigest) && CarriesPurposeFields(g)
  {
    hide ValidSHA256Digest, PurposeFieldsValid, CarriesPurposeFields, GrantScopeForPurpose, ScopeText;
    PurposeFieldsExactly(g);
    UnknownCarriesNothing(g);
    if !g.purpose.UnknownPurpose? {
      ScopeExactly(g.purpose);
    }
  }
}
