/** A provider and two of its runs: one publishes a record of other files than the disclosed ones, the other turns
    exact retries away. */
module SourceExamples {
  import opened Primitives
  import opened ContractTypes
  import opened DigestFraming
  import opened CanonicalPath
  import opened SourceOperations
  import opened OperationGrants
  import opened SourceProvider
  import opened SourceRuns
  import opened PublicationHistory
  import opened SourceRetries
  import opened SourceScenarios

  // ----- a library and grants -----

  /** Any function may stand for SHA-256; this one repeats the last byte. */
  function LastByteSum(s: string): Sum
  {
    if s != "" && IsByte(s[|s| - 1]) then seq(32, i => s[|s| - 1]) else seq(32, i => 'a')
  }

  const LIB := Library(LastByteSum, (value: JsonValue) => Some("m"), (s: string) => true, (s: string) => true)

  function SomeDigest(): (d: string)
    ensures ValidSHA256Digest(d)
  {
    DigestText(LastByteSum("m"))
  }

  function SourceGrant(operation: OperationGrantRequest): OperationGrant
  {
    AssembleGrant("issuer", "subject", "audience", "key", "token", CHECK_TIME, 300 * SECOND, operation)
  }

  function RouteFor(g: OperationGrant): OperationRouteBinding
  {
    OperationRouteBinding(g.issuer, g.subject, g.audience, g.tokenType, g.scope, g.purpose, g.providerID, g.adapterID,
                          g.transportContentType, g.rawTransportDigest, g.method_, g.resource)
  }

  function EmptyOperation(purpose: GrantPurpose, providerID: string, adapterID: string, commandID: string,
                          digest: string): OperationGrantRequest
  {
    OperationGrantRequest(
      purpose := purpose, providerID := providerID, adapterID := adapterID, competitionID := "", contestID := "",
      requestID := "", providerInstanceID := "", commandID := commandID, typedPayloadDigest := digest,
      transportContentType := "application/json", rawTransportDigest := SomeDigest(), method_ := "POST",
      resource := "/game/source", participantID := "", participantVersionID := "", repositoryNodeID := "",
      commitOID := "", manifestPath := "", manifestEntryKind := "", rawManifestBytesDigest := "",
      manifestByteLimit := 0, closurePlanID := "", closurePlanDigest := "", candidateTransferredBytesDigest := "",
      publicCandidateTransferredBytesDigest := "", aggregateByteLimit := 0, retentionReceiptID := "",
      artifactDigest := "", disclosureReceiptID := "", disclosureRequestDigest := "")
  }

  function PlanOperation(r: ManifestClosurePlanRequest): OperationGrantRequest
  {
    EmptyOperation(ManifestClosurePlan, r.providerID, r.adapterID, r.commandID, r.typedPayloadDigest).(
      participantID := r.participantID, participantVersionID := r.participantVersionID,
      repositoryNodeID := r.repositoryNodeID, commitOID := r.commitOID, manifestPath := r.manifestPath,
      manifestEntryKind := r.manifestEntryKind, rawManifestBytesDigest := r.rawManifestBytesDigest,
      manifestByteLimit := r.manifestByteLimit)
  }

  function RetainOperation(r: CandidateClosureRetentionRequest): OperationGrantRequest
  {
    EmptyOperation(CandidateValidateRetain, r.providerID, r.adapterID, r.commandID, r.typedPayloadDigest).(
      participantID := r.participantID, participantVersionID := r.participantVersionID,
      repositoryNodeID := r.repositoryNodeID, commitOID := r.commitOID, closurePlanID := r.closurePlanID,
      closurePlanDigest := r.closurePlanDigest, candidateTransferredBytesDigest := r.candidateTransferredBytesDigest,
      aggregateByteLimit := r.aggregateByteLimit)
  }

  function DiscloseOperation(r: ArtifactDisclosureVerificationRequest): OperationGrantRequest
  {
    EmptyOperation(ArtifactDisclosureVerify, r.providerID, r.adapterID, r.commandID, r.typedPayloadDigest).(
      participantID := r.participantID, participantVersionID := r.participantVersionID,
      repositoryNodeID := r.repositoryNodeID, commitOID := r.commitOID, closurePlanID := r.closurePlanID,
      closurePlanDigest := r.closurePlanDigest, aggregateByteLimit := r.aggregateByteLimit,
      publicCandidateTransferredBytesDigest := r.publicCandidateTransferredBytesDigest,
      retentionReceiptID := r.retentionReceiptID, artifactDigest := r.artifactDigest)
  }

  function PublishOperation(r: ArtifactPublicationRequest): OperationGrantRequest
  {
    EmptyOperation(ArtifactPublish, r.providerID, r.adapterID, r.commandID, r.typedPayloadDigest).(
      participantID := r.participantID, participantVersionID := r.participantVersionID,
      retentionReceiptID := r.retentionReceiptID, artifactDigest := r.artifactDigest,
      disclosureReceiptID := r.disclosureReceiptID, disclosureRequestDigest := r.disclosureRequestDigest)
  }

  lemma SourceGrantValid(operation: OperationGrantRequest)
    requires OperationFactsValid(operation) && PurposeFieldsValid(operation)
    ensures ValidOperationGrant(SourceGrant(operation)) && RequestedOperation(SourceGrant(operation)) == operation
    ensures RouteShape(RouteFor(SourceGrant(operation)))
  {
    hide PurposeFieldsValid, ValidSHA256Digest;
    AssembledGrantValidity("issuer", "subject", "audience", "key", "token", CHECK_TIME, 300 * SECOND, operation);
  }

  lemma PlanGrantBinds(lib: Library, r: ManifestClosurePlanRequest)
    requires ValidManifestClosurePlanRequest(lib, r)
    ensures var g := SourceGrant(PlanOperation(r));
            ValidOperationGrant(g) && GrantBindsManifestRequest(lib, g, RouteFor(g), r)
  {
    hide ValidSHA256Digest, ValidSourceObjectID, ValidCanonicalSourcePath, DigestJSON, SomeDigest, ValidOperationGrant,
         RouteShape;
    EmptyPathIsNotCanonical(r.manifestPath);
    SourceGrantValid(PlanOperation(r));
  }

  lemma RetainGrantBinds(lib: Library, r: CandidateClosureRetentionRequest)
    requires ValidCandidateClosureRetentionRequest(lib, r)
    ensures var g := SourceGrant(RetainOperation(r));
            ValidOperationGrant(g) && GrantBindsCandidateRequest(lib, g, RouteFor(g), r)
  {
    hide ValidSHA256Digest, ValidSourceObjectID, DigestJSON, SomeDigest, ValidOperationGrant, RouteShape;
    SourceGrantValid(RetainOperation(r));
  }

  lemma DiscloseGrantBinds(lib: Library, r: ArtifactDisclosureVerificationRequest)
    requires ValidArtifactDisclosureVerificationRequest(lib, r)
    ensures var g := SourceGrant(DiscloseOperation(r));
            ValidOperationGrant(g) && GrantBindsDisclosureRequest(lib, g, RouteFor(g), r)
  {
    hide ValidSHA256Digest, ValidSourceObjectID, DigestJSON, SomeDigest, ValidOperationGrant, RouteShape;
    SourceGrantValid(DiscloseOperation(r));
  }

  lemma PublishGrantBinds(lib: Library, r: ArtifactPublicationRequest)
    requires ValidArtifactPublicationRequest(lib, r)
    ensures var g := SourceGrant(PublishOperation(r));
            ValidOperationGrant(g) && GrantBindsPublicationRequest(lib, g, RouteFor(g), r)
  {
    hide ValidSHA256Digest, ValidSourceObjectID, DigestJSON, SomeDigest, ValidOperationGrant, RouteShape;
    SourceGrantValid(PublishOperation(r));
  }

  // ----- the provider and its run -----

  function ExampleSetup(): Setup
  {
    Setup(
      LIB, "plan", [PlannedSourceFile("a", SOURCE_ENTRY_REGULAR, 8)], 8, SomeDigest(), 1, 1, "reference",
      (r, b) => RouteFor(SourceGrant(PlanOperation(r))), (r, f) => RouteFor(SourceGrant(RetainOperation(r))),
      (r, f) => RouteFor(SourceGrant(DiscloseOperation(r))), r => RouteFor(SourceGrant(PublishOperation(r))), false)
  }

  function ExampleFiles(content: char): seq<CandidateSourceFile>
  {
    [CandidateSourceFile("a", SOURCE_ENTRY_REGULAR, [content])]
  }

  function ExampleOID(digit: char): (oid: string)
    requires IsHexDigit(digit)
    ensures ValidSourceObjectID(oid)
  {
    var hex := seq(40, i => digit);
    assert ("sha1:" + hex)[..5] == "sha1:" && ("sha1:" + hex)[5..] == hex;
    "sha1:" + hex
  }

  function ExampleManifestRequest(digit: char, command: string): ManifestClosurePlanRequest
    requires IsHexDigit(digit)
  {
    var payload := ManifestClosurePlanRequest(
      "provider", "adapter", command, "participant", "version", "node", ExampleOID(digit), "a", SOURCE_ENTRY_REGULAR,
      DigestOf(LIB.sha256, RAW_MANIFEST_BYTES_DOMAIN, ["m"]), 8, "");
    payload.(typedPayloadDigest := SealedDigest(LIB, MANIFEST_CLOSURE_PLAN_DOMAIN, ManifestRequestJson(payload)))
  }

  lemma SingleLetterIsCanonical()
    ensures ValidCanonicalSourcePath("a")
  {
    SplitWithoutSlash("a");
    CanonicalExactly("a");
  }

  lemma ExampleIsSound()
    ensures Sound(ExampleSetup()) && ExampleSetup().lib == LIB
  {
    SingleLetterIsCanonical();
    hide ValidCanonicalSourcePath, SomeDigest, ValidSHA256Digest;
  }

  lemma SealedDigestValid(domain: string, value: JsonValue)
    ensures ValidSHA256Digest(SealedDigest(LIB, domain, value))
    ensures DigestJSON(LIB, domain, value) == Some(SealedDigest(LIB, domain, value))
  {
    DigestsAreValid(LIB, domain, "m");
    hide DigestOf, ValidSHA256Digest;
  }

  lemma ExampleManifestValid(digit: char, command: string)
    requires IsHexDigit(digit) && command != ""
    ensures ValidManifestClosurePlanInput(LIB, ExampleManifestRequest(digit, command), "m")
  {
    hide DigestOf, ValidSHA256Digest, ValidCanonicalSourcePath, ValidSourceObjectID, DigestJSON, SealedDigest,
         ExampleOID;
    SingleLetterIsCanonical();
    DigestsAreValid(LIB, RAW_MANIFEST_BYTES_DOMAIN, "m");
    var r := ExampleManifestRequest(digit, command);
    var payload := r.(typedPayloadDigest := "");
    SealedDigestValid(MANIFEST_CLOSURE_PLAN_DOMAIN, ManifestRequestJson(payload));
  }

  lemma ExampleTotal(content: char)
    ensures TotalSize(ExampleFiles(content)) == 1
  {
    var files := ExampleFiles(content);
    assert files[..|files| - 1] == [] && TotalSize([]) == 0;
  }

  lemma ExampleFilesKeepToPlan(content: char)
    ensures KeepsToPlan(ExampleSetup(), ExampleFiles(content))
  {
    ExampleTotal(content);
    hide TotalSize;
  }

  lemma TransferDigestsAreValid(lib: Library, files: seq<CandidateSourceFile>)
    requires TransferDigest(lib, files).Some?
    ensures ValidSHA256Digest(TransferDigestText(lib, files))
  {
    hide Preimage, DigestibleFiles;
  }

  lemma RetentionRequestValid(made: ClosurePlan, files: seq<CandidateSourceFile>, command: string)
    requires MadeHere(ExampleSetup(), made) && KeepsToPlan(ExampleSetup(), files) && command != ""
    ensures ValidCandidateClosureRetentionRequest(LIB, RetentionRequestFor(LIB, made, files, command))
  {
    KeptFilesFit(ExampleSetup(), made, files);
    var r := RetentionRequestFor(LIB, made, files, command);
    SealedDigestValid(CANDIDATE_CLOSURE_RETENTION_DOMAIN, CandidateRequestJson(r.(typedPayloadDigest := "")));
    TransferDigestsAreValid(LIB, files);
    hide DigestOf, ValidSHA256Digest, DigestJSON, SealedDigest, ValidSourceObjectID, PlannedFilesValid, KeepsToPlan,
         TransferDigest, TransferFits;
  }

  lemma DisclosureRequestValid(made: ClosurePlan, retention: ArtifactRetentionReceipt,
                               files: seq<CandidateSourceFile>, command: string)
    requires MadeHere(ExampleSetup(), made) && KeepsToPlan(ExampleSetup(), files) && command != ""
    requires retention.receiptID != "" && ValidSHA256Digest(retention.artifactDigest)
    ensures ValidArtifactDisclosureVerificationRequest(LIB, DisclosureRequestFor(LIB, made, retention, files, command))
  {
    KeptFilesFit(ExampleSetup(), made, files);
    var r := DisclosureRequestFor(LIB, made, retention, files, command);
    SealedDigestValid(ARTIFACT_DISCLOSURE_DOMAIN, DisclosureRequestJson(r.(typedPayloadDigest := "")));
    TransferDigestsAreValid(LIB, files);
    hide DigestOf, ValidSHA256Digest, DigestJSON, SealedDigest, ValidSourceObjectID, PlannedFilesValid, KeepsToPlan,
         TransferDigest, TransferFits;
  }

  lemma PublicationRequestValid(retention: ArtifactRetentionReceipt, disclosure: ArtifactDisclosureVerificationRequest,
                                command: string)
    requires ValidRetentionReceipt(retention) && ValidArtifactDisclosureVerificationRequest(LIB, disclosure)
    requires command != ""
    ensures ValidArtifactPublicationRequest(LIB, PublicationRequestFor(LIB, retention, disclosure, command))
  {
    var r := PublicationRequestFor(LIB, retention, disclosure, command);
    SealedDigestValid(ARTIFACT_PUBLICATION_DOMAIN, PublicationRequestJson(r.(typedPayloadDigest := "")));
    hide DigestOf, ValidSHA256Digest, DigestJSON, SealedDigest, ValidSourceObjectID;
  }

  lemma ExampleSumEndsInContent(content: char)
    requires IsByte(content)
    ensures LastByteSum(Preimage(CANDIDATE_TRANSFERRED_BYTES_DOMAIN, TransferParts(ExampleFiles(content))))
         == seq(32, i => content)
  {
    hide BigEndian;
    var files := ExampleFiles(content);
    var head := [CANDIDATE_TRANSFERRED_BYTES_DOMAIN, BigEndian(ToUint64(1), 8), "a", SOURCE_ENTRY_REGULAR];
    assert files[1..] == [];
    assert FileParts(files) == ["a", SOURCE_ENTRY_REGULAR, [content]] + FileParts([]);
    assert TransferParts(files) == [head[1], "a", SOURCE_ENTRY_REGULAR, [content]];
    assert [CANDIDATE_TRANSFERRED_BYTES_DOMAIN] + TransferParts(files) == head + [[content]];
    FramesAppend(head, [content]);
    var stream := Frames(head) + Frame([content]);
    assert stream[|stream| - 1] == content;
  }

  lemma ExampleDigest(content: char)
    ensures TransferDigestText(LIB, ExampleFiles(content))
         == DigestText(LastByteSum(Preimage(CANDIDATE_TRANSFERRED_BYTES_DOMAIN, TransferParts(ExampleFiles(content)))))
  {
    SingleLetterIsCanonical();
    hide ValidCanonicalSourcePath, Preimage, TransferParts, LastByteSum;
  }

  lemma ExampleTransfersDiffer()
    ensures TransferDigestText(LIB, ExampleFiles('a')) != TransferDigestText(LIB, ExampleFiles('b'))
  {
    ExampleDigest('a');
    ExampleDigest('b');
    ExampleSumEndsInContent('a');
    ExampleSumEndsInContent('b');
    var a, b: Sum := seq(32, i => 'a'), seq(32, i => 'b');
    assert a[0] != b[0];
    hide TransferDigestText, Preimage, TransferParts;
    if DigestText(a) == DigestText(b) {
      DigestTextInjective(a, b);
      assert false;
    }
  }

  lemma RetainCallBinds(r: CandidateClosureRetentionRequest, files: seq<CandidateSourceFile>)
    requires ValidCandidateClosureRetentionRequest(LIB, r)
    ensures GrantBinds(ExampleSetup(), RetainCall(SourceGrant(RetainOperation(r)), r, files))
  {
    hide ValidOperationGrant, GrantBindsCandidateRequest, ValidCandidateClosureRetentionRequest, SourceGrant,
         RetainOperation, SomeDigest;
    RetainGrantBinds(LIB, r);
  }

  lemma DiscloseCallBinds(r: ArtifactDisclosureVerificationRequest, files: seq<CandidateSourceFile>)
    requires ValidArtifactDisclosureVerificationRequest(LIB, r)
    ensures GrantBinds(ExampleSetup(), DiscloseCall(SourceGrant(DiscloseOperation(r)), r, files))
  {
    hide ValidOperationGrant, GrantBindsDisclosureRequest, ValidArtifactDisclosureVerificationRequest, SourceGrant,
         DiscloseOperation, SomeDigest;
    DiscloseGrantBinds(LIB, r);
  }

  lemma PublishCallBinds(r: ArtifactPublicationRequest)
    requires ValidArtifactPublicationRequest(LIB, r)
    ensures GrantBinds(ExampleSetup(), PublishCall(SourceGrant(PublishOperation(r)), r))
  {
    hide ValidOperationGrant, GrantBindsPublicationRequest, ValidArtifactPublicationRequest, SourceGrant,
         PublishOperation, SomeDigest;
    PublishGrantBinds(LIB, r);
  }

  // ----- the calls -----

  function PlanExample(digit: char, command: string): Call
    requires IsHexDigit(digit)
  {
    var request := ExampleManifestRequest(digit, command);
    PlanCall(SourceGrant(PlanOperation(request)), request, "m")
  }

  function RetainExample(made: ClosurePlan, content: char, command: string): Call
  {
    var request := RetentionRequestFor(LIB, made, ExampleFiles(content), command);
    RetainCall(SourceGrant(RetainOperation(request)), request, ExampleFiles(content))
  }

  /** The receipt of the retention of "a". */
  function FirstReceipt(made: ClosurePlan): ArtifactRetentionReceipt
  {
    RetainedReceipt(ExampleSetup(), RetentionRequestFor(LIB, made, ExampleFiles('a'), "1"))
  }

  function DiscloseExample(made: ClosurePlan): Call
  {
    var request := DisclosureRequestFor(LIB, made, FirstReceipt(made), ExampleFiles('a'), "2");
    DiscloseCall(SourceGrant(DiscloseOperation(request)), request, ExampleFiles('a'))
  }

  function PublishExample(made: ClosurePlan): Call
  {
    var disclosure := DisclosureRequestFor(LIB, made, FirstReceipt(made), ExampleFiles('a'), "2");
    var request := PublicationRequestFor(LIB, FirstReceipt(made), disclosure, "4");
    PublishCall(SourceGrant(PublishOperation(request)), request)
  }

  lemma ExampleCommands(made: ClosurePlan, digit: char, content: char, command: string)
    requires IsHexDigit(digit)
    ensures CommandOf(PlanExample(digit, command)) == command
    ensures CommandOf(RetainExample(made, content, command)) == command
    ensures CommandOf(DiscloseExample(made)) == "2" && CommandOf(PublishExample(made)) == "4"
  {
    hide SourceGrant, PlanOperation, RetainOperation, DiscloseOperation, PublishOperation, ExampleFiles, SealedDigest,
         TransferDigestText, FirstReceipt;
  }

  lemma PlanExampleIsHonest(digit: char, command: string)
    requires IsHexDigit(digit) && command != ""
    ensures var call := PlanExample(digit, command);
            && call.PlanCall? && call.planRequest == ExampleManifestRequest(digit, command)
            && PlanAdmitted(ExampleSetup(), call.grant, call.planRequest, call.manifestBytes)
            && PlanFor(ExampleSetup(), call.planRequest).Some?
            && MadeHere(ExampleSetup(), PlanFor(ExampleSetup(), call.planRequest).value)
  {
    hide ValidManifestClosurePlanRequest, PlanOperation, SourceGrant, ExampleManifestRequest, PlanFor, DigestOf,
         ValidOperationGrant, GrantBindsManifestRequest, SetupValid, MadeHere;
    var request := ExampleManifestRequest(digit, command);
    ExampleManifestValid(digit, command);
    PlanGrantBinds(LIB, request);
    ExampleIsSound();
    PlansAreMade(ExampleSetup(), request);
    PlansAreMadeHere(ExampleSetup(), request);
  }

  lemma RetainExampleIsHonest(plan: Call, made: ClosurePlan, content: char, command: string)
    requires plan.PlanCall? && PlanFor(ExampleSetup(), plan.planRequest) == Some(made)
    requires MadeHere(ExampleSetup(), made) && command != ""
    ensures HonestRetention(ExampleSetup(), plan, RetainExample(made, content, command))
    ensures RetainExample(made, content, command).RetainCall?
    ensures RetainExample(made, content, command).files == ExampleFiles(content)
  {
    hide RetainOperation, SourceGrant, GrantBinds, PlanFor, RetentionRequestFor, ExampleSetup, SetupValid, CommandOf,
         ValidCandidateClosureRetentionRequest, ExampleFiles, MadeHere, KeepsToPlan, PlanExample, DiscloseExample,
         PublishExample;
    ExampleIsSound();
    ExampleCommands(made, '0', content, command);
    ExampleFilesKeepToPlan(content);
    RetentionRequestValid(made, ExampleFiles(content), command);
    RetainCallBinds(RetentionRequestFor(LIB, made, ExampleFiles(content), command), ExampleFiles(content));
  }

  lemma FirstReceiptIsValid(made: ClosurePlan)
    requires MadeHere(ExampleSetup(), made)
    ensures ValidRetentionReceipt(FirstReceipt(made))
    ensures FirstReceipt(made).receiptID != "" && ValidSHA256Digest(FirstReceipt(made).artifactDigest)
  {
    hide RetentionRequestFor, ExampleFiles, MadeHere, KeepsToPlan, ValidCandidateClosureRetentionRequest,
         ValidSHA256Digest, RetainedReceipt;
    ExampleFilesKeepToPlan('a');
    RetentionRequestValid(made, ExampleFiles('a'), "1");
    RetainedReceiptIsValid(ExampleSetup(), RetentionRequestFor(LIB, made, ExampleFiles('a'), "1"));
  }

  lemma DiscloseExampleBinds(made: ClosurePlan)
    requires MadeHere(ExampleSetup(), made)
    ensures GrantBinds(ExampleSetup(), DiscloseExample(made))
  {
    hide DisclosureRequestFor, DiscloseOperation, SourceGrant, GrantBinds, ExampleSetup,
         ValidArtifactDisclosureVerificationRequest, ExampleFiles, MadeHere, KeepsToPlan, FirstReceipt,
         ValidRetentionReceipt, ValidSHA256Digest;
    ExampleFilesKeepToPlan('a');
    FirstReceiptIsValid(made);
    DisclosureRequestValid(made, FirstReceipt(made), ExampleFiles('a'), "2");
    DiscloseCallBinds(DisclosureRequestFor(LIB, made, FirstReceipt(made), ExampleFiles('a'), "2"),
                      ExampleFiles('a'));
  }

  lemma DiscloseExampleIsHonest(plan: Call, made: ClosurePlan)
    requires plan.PlanCall? && PlanAdmitted(ExampleSetup(), plan.grant, plan.planRequest, plan.manifestBytes)
    requires PlanFor(ExampleSetup(), plan.planRequest) == Some(made) && MadeHere(ExampleSetup(), made)
    ensures HonestDisclosure(ExampleSetup(), plan, RetainExample(made, 'a', "1"), DiscloseExample(made))
  {
    hide RetainOperation, DiscloseOperation, SourceGrant, GrantBinds, PlanFor, SealedDigest, TransferDigestText,
         ExampleFiles, MadeHere, KeepsToPlan, PlanAdmitted, RetentionRequestFor, HonestRetention, RetainedReceipt,
         ExampleSetup, SetupValid, CommandOf, DisclosureRequestFor, PlanExample, PublishExample;
    ExampleIsSound();
    ExampleCommands(made, '0', 'a', "2");
    RetainExampleIsHonest(plan, made, 'a', "1");
    DiscloseExampleBinds(made);
  }

  lemma PublishExampleBinds(made: ClosurePlan)
    requires MadeHere(ExampleSetup(), made)
    ensures GrantBinds(ExampleSetup(), PublishExample(made))
  {
    hide DisclosureRequestFor, PublicationRequestFor, PublishOperation, SourceGrant, GrantBinds, ExampleSetup,
         ValidArtifactDisclosureVerificationRequest, ValidArtifactPublicationRequest,
         ExampleFiles, MadeHere, KeepsToPlan, FirstReceipt, ValidRetentionReceipt, ValidSHA256Digest;
    ExampleFilesKeepToPlan('a');
    FirstReceiptIsValid(made);
    var disclosure := DisclosureRequestFor(LIB, made, FirstReceipt(made), ExampleFiles('a'), "2");
    DisclosureRequestValid(made, FirstReceipt(made), ExampleFiles('a'), "2");
    PublicationRequestValid(FirstReceipt(made), disclosure, "4");
    PublishCallBinds(PublicationRequestFor(LIB, FirstReceipt(made), disclosure, "4"));
  }

  lemma PublishExampleIsHonest(made: ClosurePlan)
    requires MadeHere(ExampleSetup(), made)
    ensures HonestPublication(ExampleSetup(), RetainExample(made, 'a', "1"), DiscloseExample(made),
                              PublishExample(made))
  {
    hide RetainOperation, DiscloseOperation, PublishOperation, SourceGrant, GrantBinds, SealedDigest,
         TransferDigestText, ExampleFiles, MadeHere, RetentionRequestFor, RetainedReceipt, DisclosureRequestFor,
         ExampleSetup, SetupValid, PublicationRequestFor, CommandOf, PlanExample;
    ExampleIsSound();
    ExampleCommands(made, '0', 'a', "1");
    PublishExampleBinds(made);
  }

  // ----- the runs -----

  function ReplacementRun(made: ClosurePlan): (run: seq<Call>)
    ensures |run| == 5
  {
    [PlanExample('0', "0"), RetainExample(made, 'a', "1"), DiscloseExample(made),
     RetainExample(made, 'b', "3"), PublishExample(made)]
  }

  lemma ReplacementRunIsNew(made: ClosurePlan)
    ensures NewCommands(map[], ReplacementRun(made))
  {
    hide PlanExample, RetainExample, DiscloseExample, PublishExample, CommandOf;
    ExampleCommands(made, '0', 'a', "0");
    ExampleCommands(made, '0', 'a', "1");
    ExampleCommands(made, '0', 'b', "3");
  }

  lemma ExampleFilesDiffer(made: ClosurePlan)
    requires MadeHere(ExampleSetup(), made)
    ensures TransferDigest(LIB, ExampleFiles('a')) != TransferDigest(LIB, ExampleFiles('b'))
  {
    hide MadeHere, TransferDigest, KeepsToPlan, ExampleFiles, TransferDigestText, TransferFits;
    ExampleFilesKeepToPlan('a');
    ExampleFilesKeepToPlan('b');
    KeptFilesFit(ExampleSetup(), made, ExampleFiles('a'));
    KeptFilesFit(ExampleSetup(), made, ExampleFiles('b'));
    ExampleTransfersDiffer();
  }

  /** Plan, retain "a", disclose it, retain "b", publish what was disclosed: all accepted, and the record published has
      another transfer digest than the disclosed one. */
  lemma PublicationOfReplacedRecord() returns (x: Setup, run: seq<Call>)
    ensures Sound(x) && ReplacedAndPublished(x, run, 0)
    ensures TransferDigest(x.lib, run[3].files) != TransferDigest(x.lib, run[1].files)
  {
    hide SetupValid, HonestDisclosure, HonestRetention, HonestPublication, ReplacedAndPublished, ExampleSetup,
         CommandOf, MadeHere, PlanFor, ExampleManifestRequest, PlanAdmitted, TransferDigest, ExampleFiles, PlanExample,
         RetainExample, DiscloseExample, PublishExample, NewCommands;
    x := ExampleSetup();
    ExampleIsSound();
    PlanExampleIsHonest('0', "0");
    var made := PlanFor(x, ExampleManifestRequest('0', "0")).value;
    run := ReplacementRun(made);
    DiscloseExampleIsHonest(run[0], made);
    RetainExampleIsHonest(run[0], made, 'a', "1");
    RetainExampleIsHonest(run[0], made, 'b', "3");
    PublishExampleIsHonest(made);
    ReplacementRunIsNew(made);
    assert run[0..] == run;
    ReplacementChain(x, run, 0);
    ExampleFilesDiffer(made);
  }

  lemma ExampleCommitsDiffer()
    ensures ExampleManifestRequest('0', "0").commitOID != ExampleManifestRequest('1', "3").commitOID
    ensures ExampleManifestRequest('0', "0").participantVersionID
         == ExampleManifestRequest('1', "3").participantVersionID
  {
    hide SealedDigest, DigestOf;
    assert ExampleOID('0')[5] != ExampleOID('1')[5];
  }

  function TwoCommitsRun(made: ClosurePlan, made': ClosurePlan): (run: seq<Call>)
    ensures |run| == 5
  {
    [PlanExample('0', "0"), RetainExample(made, 'a', "1"), DiscloseExample(made),
     PlanExample('1', "3"), RetainExample(made', 'a', "4")]
  }

  lemma TwoCommitsRunIsNew(made: ClosurePlan, made': ClosurePlan)
    ensures NewCommands(map[], TwoCommitsRun(made, made'))
  {
    hide PlanExample, RetainExample, DiscloseExample, PublishExample, CommandOf;
    ExampleCommands(made, '0', 'a', "0");
    ExampleCommands(made, '0', 'a', "1");
    ExampleCommands(made', '1', 'a', "3");
    ExampleCommands(made', '1', 'a', "4");
  }

  lemma TwoCommitsRunIsHonest(made: ClosurePlan, made': ClosurePlan)
    requires PlanFor(ExampleSetup(), ExampleManifestRequest('0', "0")) == Some(made)
    requires PlanFor(ExampleSetup(), ExampleManifestRequest('1', "3")) == Some(made')
    ensures HonestForTwoCommits(ExampleSetup(), TwoCommitsRun(made, made'), 0)
  {
    hide HonestDisclosure, HonestRetention, ExampleSetup, PlanExample, RetainExample, DiscloseExample, MadeHere,
         PlanFor, ExampleManifestRequest, PlanAdmitted;
    PlanExampleIsHonest('0', "0");
    PlanExampleIsHonest('1', "3");
    DiscloseExampleIsHonest(PlanExample('0', "0"), made);
    RetainExampleIsHonest(PlanExample('1', "3"), made', 'a', "4");
    ExampleCommitsDiffer();
  }

  /** Plan, retain "a", disclose it, plan and retain for another commit of the same version: all accepted, and then
      every exact retry of the first retention and of the disclosure is an invalid grant. */
  lemma RetriesOfOlderCommit() returns (x: Setup, run: seq<Call>)
    ensures Sound(x) && HonestForTwoCommits(x, run, 0) && RetriesTurnedAway(x, run, 0)
  {
    hide SetupValid, HonestForTwoCommits, RetriesTurnedAway, ExampleSetup, TwoCommitsRun, MadeHere, PlanFor,
         PlanExample, ExampleManifestRequest, PlanAdmitted, NewCommands;
    x := ExampleSetup();
    ExampleIsSound();
    PlanExampleIsHonest('0', "0");
    PlanExampleIsHonest('1', "3");
    var made := PlanFor(x, ExampleManifestRequest('0', "0")).value;
    var made' := PlanFor(x, ExampleManifestRequest('1', "3")).value;
    run := TwoCommitsRun(made, made');
    TwoCommitsRunIsHonest(made, made');
    TwoCommitsRunIsNew(made, made');
    assert run[0..] == run;
    TwoCommitsChain(x, run, 0);
  }
}
