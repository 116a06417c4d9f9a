/** What every call of every run of the source provider is answered, decided by the fields of its grant and request,
    the route, the provider's fixed facts and what was accepted before. */
module SourceAnswers {
  import opened Primitives
  import opened ContractTypes
  import opened DigestFraming
  import opened CanonicalPath
  import opened SourceOperations
  import opened OperationGrants
  import opened GrantAuthority
  import opened SourceProvider
  import opened SourceRuns
  import opened PublicationHistory
  import opened SourceRetries

  // ----- who may call -----

  /** Planned path, regular entry, size within the file's limit and total within the provider's. */
  predicate KeepsToFiles(x: Setup, files: seq<CandidateSourceFile>)
  {
    && |files| == |x.planFiles| && TotalSize(files) <= x.aggregateByteLimit
    && forall i | 0 <= i < |files| ::
         && files[i].canonicalPath == x.planFiles[i].canonicalPath && files[i].entryKind == "regular"
         && |files[i].bytes| <= x.planFiles[i].byteLimit
  }

  function TransferText(lib: Library, files: seq<CandidateSourceFile>): string
  {
    DigestText(lib.sha256(
      Frames(["competios.candidate-transferred-files.v1", BigEndian(ToUint64(|files|), 8)] + FileParts(files))))
  }

  predicate MayPlan(x: Setup, g: OperationGrant, r: ManifestClosurePlanRequest, manifestBytes: string)
  {
    && IsPlanGrant(g, x.manifestRoute(r, manifestBytes), r)
    && r.commandID != "" && r.participantID != "" && r.participantVersionID != "" && r.repositoryNodeID != ""
    && ValidSourceObjectID(r.commitOID) && ValidCanonicalSourcePath(r.manifestPath) && r.manifestEntryKind == "regular"
    && SealedBy(x.lib, "competios.manifest-closure-plan-request-payload.v1",
                ManifestRequestJson(r.(typedPayloadDigest := "")), r.typedPayloadDigest)
    && 0 < r.manifestByteLimit && |manifestBytes| <= r.manifestByteLimit
    && r.rawManifestBytesDigest
       == DigestText(x.lib.sha256(Frames(["competios.raw-manifest-bytes.v1", manifestBytes])))
  }

  predicate MayRetain(x: Setup, plansByID: map<string, ClosurePlan>, g: OperationGrant,
                      r: CandidateClosureRetentionRequest, files: seq<CandidateSourceFile>)
  {
    && IsRetainGrant(g, x.candidateRoute(r, files), r) && r.commandID != ""
    && SealedBy(x.lib, "competios.candidate-closure-retention-request-payload.v1",
                CandidateRequestJson(r.(typedPayloadDigest := "")), r.typedPayloadDigest)
    && r.closurePlanID in plansByID
    && var plan := plansByID[r.closurePlanID];
    && r.providerID == plan.providerID && r.adapterID == plan.adapterID && r.participantID == plan.participantID
    && r.participantVersionID == plan.participantVersionID && r.repositoryNodeID == plan.repositoryNodeID
    && r.commitOID == plan.commitOID && r.closurePlanDigest == plan.closurePlanDigest
    && r.aggregateByteLimit == x.aggregateByteLimit
    && KeepsToFiles(x, files) && r.candidateTransferredBytesDigest == TransferText(x.lib, files)
  }

  predicate MayDisclose(x: Setup, retained: map<string, RetainedRecord>, g: OperationGrant,
                        r: ArtifactDisclosureVerificationRequest, files: seq<CandidateSourceFile>)
  {
    && IsDiscloseGrant(g, x.disclosureRoute(r, files), r) && r.commandID != ""
    && SealedBy(x.lib, "competios.artifact-disclosure-verification-request-payload.v1",
                DisclosureRequestJson(r.(typedPayloadDigest := "")), r.typedPayloadDigest)
    && r.retentionReceiptID in retained && r.artifactDigest == x.artifactDigest
    && var plan := retained[r.retentionReceiptID].plan;
    && r.providerID == plan.providerID && r.adapterID == plan.adapterID && r.participantID == plan.participantID
    && r.participantVersionID == plan.participantVersionID && r.repositoryNodeID == plan.repositoryNodeID
    && r.commitOID == plan.commitOID && r.closurePlanID == x.planID && r.closurePlanDigest == plan.closurePlanDigest
    && r.aggregateByteLimit == x.aggregateByteLimit
    && KeepsToFiles(x, files) && r.publicCandidateTransferredBytesDigest == TransferText(x.lib, files)
  }

  predicate MayPublish(x: Setup, g: OperationGrant, r: ArtifactPublicationRequest)
  {
    && IsPublishGrant(g, x.publicationRoute(r), r)
    && r.commandID != "" && r.participantID != "" && r.participantVersionID != "" && r.retentionReceiptID != ""
    && r.disclosureReceiptID != "" && ValidSHA256Digest(r.artifactDigest)
    && ValidSHA256Digest(r.disclosureRequestDigest)
    && SealedBy(x.lib, "competios.artifact-publication-request-payload.v1",
                PublicationRequestJson(r.(typedPayloadDigest := "")), r.typedPayloadDigest)
  }

  /** The grant is the one for this request and route, the request is sealed and well formed, and it repeats what the
      provider holds. */
  predicate Entitled(x: Setup, s: SourceState, call: Call)
  {
    match call
    case PlanCall(g, r, manifestBytes) => MayPlan(x, g, r, manifestBytes)
    case RetainCall(g, r, files) => MayRetain(x, s.plansByID, g, r, files)
    case DiscloseCall(g, r, files) => MayDisclose(x, s.retained, g, r, files)
    case PublishCall(g, r) => MayPublish(x, g, r)
  }

  lemma PlanRouteNames(g: OperationGrant, route: OperationRouteBinding, r: ManifestClosurePlanRequest)
    ensures IsPlanGrant(g, route, r) ==> r.providerID != "" && r.adapterID != ""
  {
    hide Dated, BareGrant, ValidSHA256Digest;
  }

  lemma UnfitManifestRefused(lib: Library, g: OperationGrant, route: OperationRouteBinding,
                             r: ManifestClosurePlanRequest)
    requires !ValidManifestClosurePlanRequest(lib, r)
    ensures !GrantBindsManifestRequest(lib, g, route, r)
  {
    hide ValidManifestClosurePlanRequest, ValidOperationGrant, ValidRoute;
  }

  lemma PlanAdmittedExactly(x: Setup, g: OperationGrant, r: ManifestClosurePlanRequest, manifestBytes: string)
    ensures PlanAdmitted(x, g, r, manifestBytes) <==> MayPlan(x, g, r, manifestBytes)
  {
    hide ValidSHA256Digest, ValidSourceObjectID, ValidCanonicalSourcePath, DigestOf, DigestJSON, SealedBy, Frames,
         IsPlanGrant, GrantBindsManifestRequest, ValidOperationGrant;
    SealedExactly(x.lib, MANIFEST_CLOSURE_PLAN_DOMAIN, ManifestRequestJson(r.(typedPayloadDigest := "")),
                  r.typedPayloadDigest);
    DigestOfOne(x.lib, RAW_MANIFEST_BYTES_DOMAIN, manifestBytes);
    PlanRouteNames(g, x.manifestRoute(r, manifestBytes), r);
    if ValidManifestClosurePlanRequest(x.lib, r) {
      PlanGrantExactly(x.lib, g, x.manifestRoute(r, manifestBytes), r);
    } else {
      UnfitManifestRefused(x.lib, g, x.manifestRoute(r, manifestBytes), r);
    }
  }

  lemma RetainRouteNames(g: OperationGrant, route: OperationRouteBinding, r: CandidateClosureRetentionRequest)
    ensures IsRetainGrant(g, route, r) ==> r.providerID != "" && r.adapterID != ""
  {
    hide Dated, BareGrant, ValidSHA256Digest;
  }

  lemma UnfitRetentionRefused(lib: Library, g: OperationGrant, route: OperationRouteBinding,
                              r: CandidateClosureRetentionRequest)
    requires !ValidCandidateClosureRetentionRequest(lib, r)
    ensures !GrantBindsCandidateRequest(lib, g, route, r)
  {
    hide ValidCandidateClosureRetentionRequest, ValidOperationGrant, ValidRoute;
  }

  /** Against a plan made here the transfer check is about the provider's files, its limit and the digest. */
  lemma TransferExactly(x: Setup, plan: ClosurePlan, files: seq<CandidateSourceFile>, digest: string)
    requires MadeHere(x, plan)
    ensures TransferFits(x.lib, plan, files, digest, x.aggregateByteLimit)
       <==> KeepsToFiles(x, files) && digest == TransferText(x.lib, files)
    ensures ValidSHA256Digest(TransferText(x.lib, files))
  {
    hide ValidSHA256Digest, PlanHeaderValid, PlanDigestMatches, TransferDigest, TotalSize, Frames, BigEndian, FileParts,
         ValidCanonicalSourcePath, TextLess, TransferFits;
    TransferAgainstValidPlan(x.lib, plan, files, digest, x.aggregateByteLimit);
    assert [CANDIDATE_TRANSFERRED_BYTES_DOMAIN] + TransferParts(files)
        == ["competios.candidate-transferred-files.v1", BigEndian(ToUint64(|files|), 8)] + FileParts(files);
    assert |files| == |x.planFiles| ==>
             forall i | 0 <= i < |files| :: PlannedFileValid(x.planFiles[i]);
  }

  lemma RetainGrantIsValid(lib: Library, g: OperationGrant, route: OperationRouteBinding,
                           r: CandidateClosureRetentionRequest)
    ensures GrantBindsCandidateRequest(lib, g, route, r) ==> ValidOperationGrant(g)
  {
    hide ValidCandidateClosureRetentionRequest, ValidOperationGrant, ValidRoute;
  }

  lemma RetentionRequestExactly(x: Setup, plan: ClosurePlan, g: OperationGrant, r: CandidateClosureRetentionRequest,
                                files: seq<CandidateSourceFile>)
    requires MadeHere(x, plan) && r.closurePlanID == x.planID
    ensures ValidOperationGrant(g) && GrantBindsCandidateRequest(x.lib, g, x.candidateRoute(r, files), r)
            && ValidCandidateClosureInput(x.lib, r, plan, files)
       <==> MayRetain(x, map[x.planID := plan], g, r, files)
  {
    hide ValidSHA256Digest, ValidSourceObjectID, ValidCanonicalSourcePath, DigestOf, DigestJSON, SealedBy, Frames,
         IsRetainGrant, GrantBindsCandidateRequest, ValidOperationGrant, TransferFits, KeepsToFiles, TransferText,
         PlannedFilesValid;
    SealedExactly(x.lib, CANDIDATE_CLOSURE_RETENTION_DOMAIN, CandidateRequestJson(r.(typedPayloadDigest := "")),
                  r.typedPayloadDigest);
    TransferExactly(x, plan, files, r.candidateTransferredBytesDigest);
    RetainRouteNames(g, x.candidateRoute(r, files), r);
    RetainGrantIsValid(x.lib, g, x.candidateRoute(r, files), r);
    if ValidCandidateClosureRetentionRequest(x.lib, r) {
      RetainGrantExactly(x.lib, g, x.candidateRoute(r, files), r);
    } else {
      UnfitRetentionRefused(x.lib, g, x.candidateRoute(r, files), r);
    }
  }

  lemma DiscloseRouteNames(g: OperationGrant, route: OperationRouteBinding, r: ArtifactDisclosureVerificationRequest)
    ensures IsDiscloseGrant(g, route, r) ==> r.providerID != "" && r.adapterID != ""
  {
    hide Dated, BareGrant, ValidSHA256Digest;
  }

  lemma DiscloseGrantIsValid(lib: Library, g: OperationGrant, route: OperationRouteBinding,
                             r: ArtifactDisclosureVerificationRequest)
    ensures GrantBindsDisclosureRequest(lib, g, route, r) ==>
              ValidOperationGrant(g) && ValidArtifactDisclosureVerificationRequest(lib, r)
  {
    hide ValidArtifactDisclosureVerificationRequest, ValidOperationGrant, ValidRoute;
  }

  lemma DisclosureRequestExactly(x: Setup, record: RetainedRecord, g: OperationGrant,
                                 r: ArtifactDisclosureVerificationRequest, files: seq<CandidateSourceFile>)
    requires MadeHere(x, record.plan) && r.retentionReceiptID != "" && ValidSHA256Digest(x.artifactDigest)
    requires record.receipt.artifactDigest == x.artifactDigest
    ensures DiscloseAdmitted(x, map[r.retentionReceiptID := record], g, r, files)
       <==> MayDisclose(x, map[r.retentionReceiptID := record], g, r, files)
  {
    hide ValidSHA256Digest, ValidSourceObjectID, ValidCanonicalSourcePath, DigestOf, DigestJSON, SealedBy, Frames,
         IsDiscloseGrant, GrantBindsDisclosureRequest, ValidOperationGrant, TransferFits, KeepsToFiles, TransferText,
         PlannedFilesValid;
    SealedExactly(x.lib, ARTIFACT_DISCLOSURE_DOMAIN, DisclosureRequestJson(r.(typedPayloadDigest := "")),
                  r.typedPayloadDigest);
    TransferExactly(x, record.plan, files, r.publicCandidateTransferredBytesDigest);
    DiscloseRouteNames(g, x.disclosureRoute(r, files), r);
    DiscloseGrantIsValid(x.lib, g, x.disclosureRoute(r, files), r);
    if ValidArtifactDisclosureVerificationRequest(x.lib, r) {
      DiscloseGrantExactly(x.lib, g, x.disclosureRoute(r, files), r);
    }
  }

  lemma PublishRouteNames(g: OperationGrant, route: OperationRouteBinding, r: ArtifactPublicationRequest)
    ensures IsPublishGrant(g, route, r) ==> r.providerID != "" && r.adapterID != ""
  {
    hide Dated, BareGrant, ValidSHA256Digest;
  }

  lemma PublishGrantIsValid(lib: Library, g: OperationGrant, route: OperationRouteBinding,
                            r: ArtifactPublicationRequest)
    ensures GrantBindsPublicationRequest(lib, g, route, r) ==>
              ValidOperationGrant(g) && ValidArtifactPublicationRequest(lib, r)
  {
    hide ValidArtifactPublicationRequest, ValidOperationGrant, ValidRoute;
  }

  lemma PublishAdmittedExactly(x: Setup, g: OperationGrant, r: ArtifactPublicationRequest)
    ensures PublishAdmitted(x, g, r) <==> MayPublish(x, g, r)
  {
    hide ValidSHA256Digest, DigestJSON, SealedBy, IsPublishGrant, GrantBindsPublicationRequest, ValidOperationGrant;
    SealedExactly(x.lib, ARTIFACT_PUBLICATION_DOMAIN, PublicationRequestJson(r.(typedPayloadDigest := "")),
                  r.typedPayloadDigest);
    PublishRouteNames(g, x.publicationRoute(r), r);
    PublishGrantIsValid(x.lib, g, x.publicationRoute(r), r);
    if ValidArtifactPublicationRequest(x.lib, r) {
      PublishGrantExactly(x.lib, g, x.publicationRoute(r), r);
    }
  }

  lemma RetainAdmittedExactly(x: Setup, calls: seq<Call>, k: nat)
    requires Sound(x) && k < |calls| && calls[k].RetainCall?
    ensures Admitted(x, StateAt(x, calls, k), calls[k]) <==> Entitled(x, StateAt(x, calls, k), calls[k])
  {
    hide SetupValid, StateAt, ValidOperationGrant, GrantBindsCandidateRequest, ValidCandidateClosureInput, SealedBy,
         IsRetainGrant, KeepsToFiles, TransferText, ValidClosurePlan;
    var s, call := StateAt(x, calls, k), calls[k];
    var r := call.retainRequest;
    if r.closurePlanID in s.plansByID {
      StoredPlanIsMadeHere(x, calls, k, r.closurePlanID);
      var h := PlanStoredBy(x, calls, k, r.closurePlanID);
      RetentionRequestExactly(x, s.plansByID[r.closurePlanID], call.grant, r, call.files);
    }
  }

  lemma RetentionIDNamed(participantVersionID: string)
    ensures RetentionID(participantVersionID) == "retention-" + participantVersionID
    ensures RetentionID(participantVersionID) != ""
  {
  }

  lemma DiscloseAdmittedExactly(x: Setup, calls: seq<Call>, k: nat)
    requires Sound(x) && k < |calls| && calls[k].DiscloseCall?
    ensures Admitted(x, StateAt(x, calls, k), calls[k]) <==> Entitled(x, StateAt(x, calls, k), calls[k])
  {
    hide StateAt, ValidOperationGrant, GrantBindsDisclosureRequest, ValidArtifactDisclosureInput, SealedBy, PlanFor,
         IsDiscloseGrant, KeepsToFiles, TransferText, ValidClosurePlan, PlannedFilesValid, ValidSHA256Digest,
         AcceptedBy, RetentionID;
    var s, call := StateAt(x, calls, k), calls[k];
    var r := call.discloseRequest;
    if r.retentionReceiptID in s.retained {
      RetainedPlanIsMadeHere(x, calls, k, r.retentionReceiptID);
      ArtifactIsConstant(x, calls, k, r.retentionReceiptID);
      var i := RetainedStoredBy(x, calls, k, r.retentionReceiptID);
      RetentionIDNamed(calls[i].retainRequest.participantVersionID);
      DisclosureRequestExactly(x, s.retained[r.retentionReceiptID], call.grant, r, call.files);
    }
  }

  /** In every run a call passes the checks before the ledger exactly when it is entitled. */
  lemma AdmittedExactly(x: Setup, calls: seq<Call>, k: nat)
    requires Sound(x) && k < |calls|
    ensures Admitted(x, StateAt(x, calls, k), calls[k]) <==> Entitled(x, StateAt(x, calls, k), calls[k])
  {
    hide SetupValid, StateAt, PlanAdmitted, RetainAdmitted, DiscloseAdmitted, PublishAdmitted, MayPlan, MayRetain,
         MayDisclose, MayPublish;
    match calls[k] {
      case PlanCall(g, r, manifestBytes) => PlanAdmittedExactly(x, g, r, manifestBytes);
      case RetainCall(_, _, _) => RetainAdmittedExactly(x, calls, k);
      case DiscloseCall(_, _, _) => DiscloseAdmittedExactly(x, calls, k);
      case PublishCall(g, r) => PublishAdmittedExactly(x, g, r);
    }
  }

  // ----- which commands are known -----

  /** An earlier call under this command was accepted. */
  predicate KnownBefore(x: Setup, calls: seq<Call>, k: nat, command: string)
    requires k <= |calls|
  {
    exists i | 0 <= i < k :: AcceptedAt(x, calls, i) && CommandOf(calls[i]) == command
  }

  lemma CommandsGrow(x: Setup, s: SourceState, call: Call)
    requires Performable(x, s, call)
    ensures Perform(x, Claimed(s, call), call).0.commands == s.commands[CommandOf(call) := LedgerEntry(call)]
  {
    hide PlanFor, TransferDigestText, DisclosureID, RetentionID, Verdict;
  }

  lemma {:induction false} KnownExactly(x: Setup, calls: seq<Call>, k: nat, command: string)
    requires Sound(x) && k <= |calls|
    ensures command in StateAt(x, calls, k).commands <==> KnownBefore(x, calls, k, command)
  {
    hide SetupValid, Step, AcceptedBy, Admitted, Performable, Perform, PublishPrepared, Claimed;
    if k == 0 {
    } else {
      KnownExactly(x, calls, k - 1, command);
      RunStep(x, calls, k - 1);
      if AcceptedAt(x, calls, k - 1) {
        CommandsGrow(x, StateAt(x, calls, k - 1), calls[k - 1]);
      }
      if KnownBefore(x, calls, k - 1, command) {
        var i :| 0 <= i < k - 1 && AcceptedAt(x, calls, i) && CommandOf(calls[i]) == command;
        assert KnownBefore(x, calls, k, command);
      }
    }
  }

  /** Both calls are of one stage and their requests have one typed digest. */
  predicate SameOperation(a: Call, b: Call)
  {
    match (a, b)
    case (PlanCall(_, r, _), PlanCall(_, r', _)) => r.typedPayloadDigest == r'.typedPayloadDigest
    case (RetainCall(_, r, _), RetainCall(_, r', _)) => r.typedPayloadDigest == r'.typedPayloadDigest
    case (DiscloseCall(_, r, _), DiscloseCall(_, r', _)) => r.typedPayloadDigest == r'.typedPayloadDigest
    case (PublishCall(_, r), PublishCall(_, r')) => r.typedPayloadDigest == r'.typedPayloadDigest
    case _ => false
  }

  lemma SameOperationExactly(a: Call, b: Call)
    ensures LedgerEntry(a) == LedgerEntry(b) <==> SameOperation(a, b)
  {
  }

  // ----- the receipts -----

  /** The receipt of a call answered for the first time. */
  predicate FirstReceipt(x: Setup, s: SourceState, call: Call, receipt: Receipt)
  {
    match call
    case PlanCall(_, r, _) =>
      && receipt.PlanReceipt?
      && var plan := receipt.planned.plan;
      && receipt.planned == ClosurePlanReceipt(
           providerID := r.providerID, adapterID := r.adapterID, commandID := r.commandID,
           participantID := r.participantID, participantVersionID := r.participantVersionID,
           requestPayloadDigest := r.typedPayloadDigest, plan := plan, status := Accepted)
      && plan == ClosurePlan(
           closurePlanID := x.planID, providerID := r.providerID, adapterID := r.adapterID,
           participantID := r.participantID, participantVersionID := r.participantVersionID,
           repositoryNodeID := r.repositoryNodeID, commitOID := r.commitOID, manifestPath := r.manifestPath,
           manifestEntryKind := "regular", manifestRequestDigest := r.typedPayloadDigest,
           rawManifestBytesDigest := r.rawManifestBytesDigest, files := x.planFiles,
           aggregateByteLimit := x.aggregateByteLimit, closurePlanDigest := plan.closurePlanDigest)
      && SealedBy(x.lib, "competios.provider-closure-plan-payload.v1",
                  ClosurePlanJson(plan.(closurePlanDigest := "")), plan.closurePlanDigest)
    case RetainCall(_, r, _) =>
      receipt == RetentionReceipt(ArtifactRetentionReceipt(
        receiptID := "retention-" + r.participantVersionID, providerID := r.providerID, adapterID := r.adapterID,
        commandID := r.commandID, participantID := r.participantID, participantVersionID := r.participantVersionID,
        closurePlanID := x.planID, closurePlanDigest := r.closurePlanDigest,
        candidateRequestDigest := r.typedPayloadDigest, artifactDigest := x.artifactDigest, status := Accepted))
    case DiscloseCall(_, r, _) =>
      && r.retentionReceiptID in s.retained
      && var retained := s.retained[r.retentionReceiptID].transferDigest;
      && receipt == DisclosureReceipt(ArtifactDisclosureVerificationReceipt(
           receiptID := "disclosure-" + r.commandID, providerID := r.providerID, adapterID := r.adapterID,
           commandID := r.commandID, participantID := r.participantID, participantVersionID := r.participantVersionID,
           retentionReceiptID := r.retentionReceiptID, artifactDigest := x.artifactDigest,
           verificationRequestDigest := r.typedPayloadDigest,
           verdict := if r.publicCandidateTransferredBytesDigest == retained then Matched else Mismatched,
           verifiedAt := x.verifiedAt))
    case PublishCall(_, r) =>
      receipt == PublicationReceipt(ArtifactPublicationReceipt(
        receiptID := "publication-1", providerID := r.providerID, adapterID := r.adapterID, commandID := r.commandID,
        participantID := r.participantID, participantVersionID := r.participantVersionID,
        retentionReceiptID := r.retentionReceiptID, disclosureReceiptID := r.disclosureReceiptID,
        disclosureRequestDigest := r.disclosureRequestDigest, publicationRequestDigest := r.typedPayloadDigest,
        artifactDigest := x.artifactDigest, publishedAt := x.publishedAt, publicReference := x.publicReference,
        status := Accepted))
  }

  lemma PlanReceiptIsFirst(x: Setup, s: SourceState, g: OperationGrant, r: ManifestClosurePlanRequest, bytes: string)
    requires MayPlan(x, g, r, bytes) && PlanFor(x, r).Some?
    ensures FirstReceipt(x, s, PlanCall(g, r, bytes), PlanReceipt(PlannedReceipt(r, PlanFor(x, r).value)))
  {
    hide ValidClosurePlan, SealedBy, DigestJSON, IsPlanGrant, ValidSourceObjectID, ValidCanonicalSourcePath;
    var plan := PlanFor(x, r).value;
    assert plan.(closurePlanDigest := "") == PlanDraft(x, r);
    SealedExactly(x.lib, CLOSURE_PLAN_DOMAIN, ClosurePlanJson(PlanDraft(x, r)), plan.closurePlanDigest);
  }

  lemma TransferTextOfKept(x: Setup, plan: ClosurePlan, files: seq<CandidateSourceFile>)
    requires MadeHere(x, plan) && KeepsToFiles(x, files)
    ensures TransferDigestText(x.lib, files) == TransferText(x.lib, files)
  {
    hide TransferText, KeepsToFiles, ValidClosurePlan, FilesFit, TotalSize;
    TransferExactly(x, plan, files, TransferText(x.lib, files));
  }

  // ----- what a publication rests on -----

  /** A stored retention and a stored matched disclosure of it, both of the publication's own version and artifact. */
  predicate Rests(x: Setup, s: SourceState, r: ArtifactPublicationRequest)
  {
    && r.retentionReceiptID in s.retained && r.disclosureReceiptID in s.disclosureIDs
    && var kept, disclosed := s.retained[r.retentionReceiptID].receipt, s.disclosureIDs[r.disclosureReceiptID];
    && disclosed.receipt.verdict == Matched && disclosed.request.retentionReceiptID == r.retentionReceiptID
    && r.disclosureRequestDigest == disclosed.request.typedPayloadDigest && r.artifactDigest == x.artifactDigest
    && r.providerID == kept.providerID == disclosed.request.providerID
    && r.adapterID == kept.adapterID == disclosed.request.adapterID
    && r.participantID == kept.participantID == disclosed.request.participantID
    && r.participantVersionID == kept.participantVersionID == disclosed.request.participantVersionID
    && kept.closurePlanID == disclosed.request.closurePlanID
    && kept.closurePlanDigest == disclosed.request.closurePlanDigest
  }

  /** A stored retention receipt: valid, under its own ID and for the provider's artifact. */
  predicate KeptReceipt(x: Setup, receiptID: string, receipt: ArtifactRetentionReceipt)
  {
    && ValidRetentionReceipt(receipt) && receipt.receiptID == receiptID && receipt.artifactDigest == x.artifactDigest
  }

  lemma StoredReceiptIsKept(x: Setup, calls: seq<Call>, k: nat, receiptID: string)
    requires Sound(x) && k <= |calls| && receiptID in StateAt(x, calls, k).retained
    ensures KeptReceipt(x, receiptID, StateAt(x, calls, k).retained[receiptID].receipt)
  {
    hide StateAt, AcceptedBy, PlanFor, TransferDigestText, RetentionID, Admitted, ValidRetentionReceipt, Performable,
         PlannedFilesValid, ValidCandidateClosureRetentionRequest, ValidSHA256Digest, PublishPrepared;
    var i := RetainedStoredBy(x, calls, k, receiptID);
    StepEffects(x, calls, i);
    AdmittedRequestsAreValid(x, StateAt(x, calls, i), calls[i]);
    RetainedReceiptIsValid(x, calls[i].retainRequest);
  }

  /** A stored disclosure: a valid request for the provider's artifact, and the receipt written for it. */
  predicate KeptDisclosure(x: Setup, receiptID: string, record: DisclosureRecord)
  {
    && ValidArtifactDisclosureVerificationRequest(x.lib, record.request) && record.receipt.receiptID == receiptID
    && record.request.artifactDigest == x.artifactDigest && receiptID != ""
    && record.receipt == DisclosedReceipt(x, record.request, record.receipt.verdict)
  }

  lemma DisclosedNamed(x: Setup, request: ArtifactDisclosureVerificationRequest, verdict: DisclosureVerdict)
    ensures DisclosedReceipt(x, request, verdict).receiptID == DisclosureID(request.commandID)
    ensures DisclosureID(request.commandID) != ""
  {
  }

  lemma StoredDisclosureIsKept(x: Setup, calls: seq<Call>, k: nat, receiptID: string)
    requires Sound(x) && k <= |calls| && receiptID in StateAt(x, calls, k).disclosureIDs
    ensures KeptDisclosure(x, receiptID, StateAt(x, calls, k).disclosureIDs[receiptID])
  {
    hide SetupValid, StateAt, AcceptedBy, PlanFor, TransferDigestText, DisclosureID, Admitted, Performable, StageAgrees,
         FourPurposes, Verdict, RetainedBy, DisclosureRests, ValidArtifactDisclosureVerificationRequest,
         PublishPrepared;
    ReachableLedger(x, calls, k);
    var s := StateAt(x, calls, k);
    var c :| c in s.disclosures && receiptID == DisclosureID(c);
    var j := DisclosureStoredBy(x, calls, k, c);
    StepEffects(x, calls, j);
    AdmittedRequestsAreValid(x, StateAt(x, calls, j), calls[j]);
    DisclosureFacts(x, StateAt(x, calls, j), calls[j]);
    ArtifactIsConstant(x, calls, j, calls[j].discloseRequest.retentionReceiptID);
    DisclosedNamed(x, calls[j].discloseRequest, s.disclosures[c].receipt.verdict);
  }

  /** In every run an entitled publication meets its prerequisites exactly when it rests on stored records. */
  lemma PreparedExactly(x: Setup, calls: seq<Call>, k: nat, r: ArtifactPublicationRequest)
    requires Sound(x) && k <= |calls| && ValidArtifactPublicationRequest(x.lib, r)
    ensures var s := StateAt(x, calls, k);
            PublishPrepared(x, s.retained, s.disclosureIDs, r) <==> Rests(x, s, r)
  {
    hide StateAt, ValidArtifactPublicationRequest, ValidRetentionReceipt, ValidArtifactDisclosureVerificationRequest,
         ValidSHA256Digest, PlannedFilesValid, DisclosureID;
    var s := StateAt(x, calls, k);
    if r.retentionReceiptID in s.retained && r.disclosureReceiptID in s.disclosureIDs {
      StoredReceiptIsKept(x, calls, k, r.retentionReceiptID);
      StoredDisclosureIsKept(x, calls, k, r.disclosureReceiptID);
    }
  }

  // ----- the answers -----

  lemma RetainedIsFirst(x: Setup, s: SourceState, call: Call)
    requires call.RetainCall? && call.retainRequest.closurePlanID == x.planID
    ensures FirstReceipt(x, s, call, RetentionReceipt(RetainedReceipt(x, call.retainRequest)))
  {
  }

  lemma DisclosedIsFirst(x: Setup, s: SourceState, call: Call)
    requires call.DiscloseCall? && MayDisclose(x, s.retained, call.grant, call.discloseRequest, call.files)
    requires MadeHere(x, s.retained[call.discloseRequest.retentionReceiptID].plan)
    ensures FirstReceipt(x, s, call, DisclosureReceipt(DisclosedBy(x, s, call).receipt))
  {
    hide TransferText, KeepsToFiles, ValidClosurePlan, SealedBy, IsDiscloseGrant, TransferDigestText;
    TransferTextOfKept(x, s.retained[call.discloseRequest.retentionReceiptID].plan, call.files);
  }

  lemma PublishedIsFirst(x: Setup, s: SourceState, call: Call)
    requires call.PublishCall? && Rests(x, s, call.publishRequest)
    ensures FirstReceipt(x, s, call, PublicationReceipt(PublishedReceipt(x, call.publishRequest)))
  {
  }

  lemma PerformAnswer(x: Setup, s: SourceState, call: Call)
    requires Performable(x, s, call)
    ensures Perform(x, Claimed(s, call), call).1
         == Answered(match call
                     case PlanCall(_, r, _) => PlanReceipt(PlannedReceipt(r, PlanFor(x, r).value))
                     case RetainCall(_, r, _) => RetentionReceipt(RetainedReceipt(x, r))
                     case DiscloseCall(_, _, _) => DisclosureReceipt(DisclosedBy(x, s, call).receipt)
                     case PublishCall(_, r) => PublicationReceipt(PublishedReceipt(x, r)))
  {
    hide PlanFor, PlannedReceipt, RetainedReceipt, PublishedReceipt, DisclosedReceipt, TransferDigestText, Verdict;
  }

  lemma PlanPerformable(x: Setup, s: SourceState, call: Call)
    requires call.PlanCall? && Performable(x, s, call)
    ensures PlanFor(x, call.planRequest).Some?
  {
    hide PlanFor;
  }

  /** The receipt of an accepted call names the request and the provider's fixed facts, and nothing else. */
  lemma AcceptedAnswer(x: Setup, calls: seq<Call>, k: nat)
    requires Sound(x) && k < |calls| && AcceptedAt(x, calls, k)
    ensures OutcomeAt(x, calls, k).Answered?
    ensures FirstReceipt(x, StateAt(x, calls, k), calls[k], OutcomeAt(x, calls, k).receipt)
  {
    hide SetupValid, StateAt, AcceptedBy, Step, Admitted, Performable, PublishPrepared, Perform, PlanFor, FirstReceipt,
         MayPlan, MayRetain, MayDisclose, MayPublish, MadeHere, PlannedReceipt, RetainedReceipt, DisclosedBy,
         PublishedReceipt, Rests, Claimed, ValidArtifactPublicationRequest;
    var s, call := StateAt(x, calls, k), calls[k];
    RunStep(x, calls, k);
    AdmittedExactly(x, calls, k);
    PerformAnswer(x, s, call);
    match call {
      case PlanCall(g, r, bytes) =>
        assert PlanFor(x, r).Some? by {
          PlanPerformable(x, s, call);
        }
        PlanReceiptIsFirst(x, s, g, r, bytes);
      case RetainCall(_, r, _) =>
        RetentionFacts(x, s, call);
        var h := PlanStoredBy(x, calls, k, r.closurePlanID);
        RetainedIsFirst(x, s, call);
      case DiscloseCall(_, r, _) =>
        DisclosureFacts(x, s, call);
        RetainedPlanIsMadeHere(x, calls, k, r.retentionReceiptID);
        DisclosedIsFirst(x, s, call);
      case PublishCall(_, r) =>
        AdmittedRequestsAreValid(x, s, call);
        PreparedExactly(x, calls, k, r);
        PublishedIsFirst(x, s, call);
    }
  }

  /** The same receipt, marked as a replay. */
  predicate Repeats(first: Receipt, again: Receipt)
  {
    match (first, again)
    case (PlanReceipt(r), PlanReceipt(r')) => r'.status == Replayed && r == r'.(status := r.status)
    case (RetentionReceipt(r), RetentionReceipt(r')) => r'.status == Replayed && r == r'.(status := r.status)
    case (DisclosureReceipt(r), DisclosureReceipt(r')) => r == r'
    case (PublicationReceipt(r), PublicationReceipt(r')) => r'.status == Replayed && r == r'.(status := r.status)
    case _ => false
  }

  lemma RepeatsAsReplay(first: Receipt)
    ensures Repeats(first, AsReplay(first))
  {
  }

  /** A call that is not entitled, whatever its command, is an invalid grant and changes nothing. */
  lemma UnentitledAnswer(x: Setup, calls: seq<Call>, k: nat)
    requires Sound(x) && k < |calls| && !Entitled(x, StateAt(x, calls, k), calls[k])
    ensures OutcomeAt(x, calls, k) == Refused(InvalidGrant) && StateAt(x, calls, k + 1) == StateAt(x, calls, k)
  {
    hide SetupValid, Entitled, Admitted, ClaimFor, Perform, ReplayOf, PublishPrepared;
    AdmittedExactly(x, calls, k);
  }

  /** An entitled call under a known command changes nothing: the same operation gets the first receipt as a replay,
      any other is a conflict. */
  lemma RepeatedAnswer(x: Setup, calls: seq<Call>, i: nat, k: nat)
    requires Sound(x) && i < k < |calls| && AcceptedAt(x, calls, i) && CommandOf(calls[i]) == CommandOf(calls[k])
    requires Entitled(x, StateAt(x, calls, k), calls[k])
    ensures StateAt(x, calls, k + 1) == StateAt(x, calls, k) && OutcomeAt(x, calls, i).Answered?
    ensures if SameOperation(calls[i], calls[k])
            then && OutcomeAt(x, calls, k).Answered?
                 && Repeats(OutcomeAt(x, calls, i).receipt, OutcomeAt(x, calls, k).receipt)
            else OutcomeAt(x, calls, k) == Refused(SourceCommandConflict)
  {
    hide SetupValid, Entitled, Admitted, StateAt, AcceptedBy, Step, LedgerEntry, AsReplay, Repeats, SameOperation;
    AdmittedExactly(x, calls, k);
    LedgerDecides(x, calls, i, k);
    SameOperationExactly(calls[i], calls[k]);
    RepeatsAsReplay(OutcomeAt(x, calls, i).receipt);
  }

  /** An entitled call under a new command is accepted; a publication only when it rests on stored records, and is
      an invalid grant otherwise. */
  lemma NewAnswer(x: Setup, calls: seq<Call>, k: nat)
    requires Sound(x) && k < |calls| && !KnownBefore(x, calls, k, CommandOf(calls[k]))
    requires Entitled(x, StateAt(x, calls, k), calls[k])
    ensures AcceptedAt(x, calls, k)
       <==> (calls[k].PublishCall? ==> Rests(x, StateAt(x, calls, k), calls[k].publishRequest))
    ensures if AcceptedAt(x, calls, k)
            then && OutcomeAt(x, calls, k).Answered?
                 && FirstReceipt(x, StateAt(x, calls, k), calls[k], OutcomeAt(x, calls, k).receipt)
            else OutcomeAt(x, calls, k) == Refused(InvalidGrant) && StateAt(x, calls, k + 1) == StateAt(x, calls, k)
  {
    hide SetupValid, Entitled, Admitted, Perform, ReplayOf, PublishPrepared, Rests, FirstReceipt, LedgerAgrees,
         ValidArtifactPublicationRequest, KnownBefore, LedgerEntry, Performable;
    var s, call := StateAt(x, calls, k), calls[k];
    AdmittedExactly(x, calls, k);
    KnownExactly(x, calls, k, CommandOf(call));
    ReachableLedger(x, calls, k);
    AdmittedRequestsAreValid(x, s, call);
    if call.PublishCall? {
      PreparedExactly(x, calls, k, call.publishRequest);
    }
    StepFacts(x, s, call);
    if AcceptedAt(x, calls, k) {
      AcceptedAnswer(x, calls, k);
    } else {
      AdmittedIsPerformable(x, s, call);
      PerformKeepsLedger(x, s, call);
    }
  }

  /** The verdict of an accepted disclosure compares the digest it asks about with the one the last accepted
      retention under its receipt ID asked to retain. */
  lemma AcceptedVerdict(x: Setup, calls: seq<Call>, j: nat) returns (i: nat)
    requires Sound(x) && j < |calls| && AcceptedAt(x, calls, j) && calls[j].DiscloseCall?
    ensures i < j && RetainsAt(x, calls, i, calls[j].discloseRequest.retentionReceiptID)
    ensures forall m | i < m < j :: !RetainsAt(x, calls, m, calls[j].discloseRequest.retentionReceiptID)
    ensures OutcomeAt(x, calls, j).Answered? && OutcomeAt(x, calls, j).receipt.DisclosureReceipt?
    ensures OutcomeAt(x, calls, j).receipt.disclosure.verdict == Matched
       <==> calls[j].discloseRequest.publicCandidateTransferredBytesDigest
            == calls[i].retainRequest.candidateTransferredBytesDigest
  {
    hide SetupValid, StateAt, AcceptedBy, Step, Admitted, PublishPrepared, PlanFor, TransferDigest, RetentionID;
    AcceptedAnswer(x, calls, j);
    StepEffects(x, calls, j);
    DisclosureFacts(x, StateAt(x, calls, j), calls[j]);
    i := RetainedStoredBy(x, calls, j, calls[j].discloseRequest.retentionReceiptID);
    StepEffects(x, calls, i);
    RetentionFacts(x, StateAt(x, calls, i), calls[i]);
  }

  // ----- the plan check -----

  lemma {:induction false} NeighboursOrder(files: seq<PlannedSourceFile>, i: nat, j: nat)
    requires forall m | 1 <= m < |files| :: TextLess(files[m - 1].canonicalPath, files[m].canonicalPath)
    requires i < j < |files|
    ensures TextLess(files[i].canonicalPath, files[j].canonicalPath)
    decreases j
  {
    hide TextLess;
    if i == j - 1 {
    } else {
      NeighboursOrder(files, i, j - 1);
      TextLessTransitive(files[i].canonicalPath, files[j - 1].canonicalPath, files[j].canonicalPath);
    }
  }

  /** A plan is accepted exactly when its names and limits are given, each file's path precedes the next one's, and
      it is sealed. */
  lemma ClosurePlanExactly(lib: Library, p: ClosurePlan)
    ensures ValidClosurePlan(lib, p)
       <==> && p.closurePlanID != "" && p.providerID != "" && p.adapterID != "" && p.participantID != ""
            && p.participantVersionID != "" && p.repositoryNodeID != "" && ValidSourceObjectID(p.commitOID)
            && ValidCanonicalSourcePath(p.manifestPath) && p.manifestEntryKind == "regular"
            && ValidSHA256Digest(p.manifestRequestDigest) && ValidSHA256Digest(p.rawManifestBytesDigest)
            && 0 < |p.files| && 0 < p.aggregateByteLimit
            && (forall i | 0 <= i < |p.files| ::
                  && ValidCanonicalSourcePath(p.files[i].canonicalPath) && p.files[i].entryKind == "regular"
                  && 0 < p.files[i].byteLimit)
            && (forall i | 1 <= i < |p.files| :: TextLess(p.files[i - 1].canonicalPath, p.files[i].canonicalPath))
            && SealedBy(lib, "competios.provider-closure-plan-payload.v1",
                        ClosurePlanJson(p.(closurePlanDigest := "")), p.closurePlanDigest)
  {
    hide ValidSHA256Digest, ValidSourceObjectID, ValidCanonicalSourcePath, DigestJSON, SealedBy, TextLess;
    SealedExactly(lib, CLOSURE_PLAN_DOMAIN, ClosurePlanJson(p.(closurePlanDigest := "")), p.closurePlanDigest);
    if forall i | 1 <= i < |p.files| :: TextLess(p.files[i - 1].canonicalPath, p.files[i].canonicalPath) {
      forall i, j | 0 <= i < j < |p.files| ensures TextLess(p.files[i].canonicalPath, p.files[j].canonicalPath) {
        NeighboursOrder(p.files, i, j);
      }
    }
  }
}
