/** Closure plans, file transfers and the checks that bind one to the other. */
module SourceOperations {
  import opened Primitives
  import opened ContractTypes
  import opened DigestFraming
  import opened CanonicalPath

  const MANIFEST_CLOSURE_PLAN_DOMAIN := "competios.manifest-closure-plan-request-payload.v1"
  const CLOSURE_PLAN_DOMAIN := "competios.provider-closure-plan-payload.v1"
  const CANDIDATE_CLOSURE_RETENTION_DOMAIN := "competios.candidate-closure-retention-request-payload.v1"
  const ARTIFACT_PUBLICATION_DOMAIN := "competios.artifact-publication-request-payload.v1"
  const RAW_MANIFEST_BYTES_DOMAIN := "competios.raw-manifest-bytes.v1"
  const CANDIDATE_TRANSFERRED_BYTES_DOMAIN := "competios.candidate-transferred-files.v1"
  const ARTIFACT_DISCLOSURE_DOMAIN := "competios.artifact-disclosure-verification-request-payload.v1"

  function DigestJSON(lib: Library, domain: string, value: JsonValue): Option<string>
  {
    match lib.marshal(value)
    case None => None
    case Some(encoded) => Some(DigestOf(lib.sha256, domain, [encoded]))
  }

  /** The digest is that of the encoded payload under this domain. */
  predicate SealedBy(lib: Library, domain: string, payload: JsonValue, digest: string)
  {
    var encoded := lib.marshal(payload);
    encoded.Some? && digest == DigestText(lib.sha256(Frames([domain, encoded.value])))
  }

  lemma SealedExactly(lib: Library, domain: string, payload: JsonValue, digest: string)
    ensures SealedBy(lib, domain, payload, digest) <==> DigestJSON(lib, domain, payload) == Some(digest)
    ensures SealedBy(lib, domain, payload, digest) ==> ValidSHA256Digest(digest)
  {
    hide ValidSHA256Digest, Frames;
    if lib.marshal(payload).Some? {
      assert [domain] + [lib.marshal(payload).value] == [domain, lib.marshal(payload).value];
    }
  }

  lemma DigestOfOne(lib: Library, domain: string, part: string)
    ensures DigestOf(lib.sha256, domain, [part]) == DigestText(lib.sha256(Frames([domain, part])))
    ensures ValidSHA256Digest(DigestOf(lib.sha256, domain, [part]))
  {
    hide ValidSHA256Digest, Frames;
    assert [domain] + [part] == [domain, part];
  }

  // ----- requests -----

  predicate ValidManifestClosurePlanRequest(lib: Library, value: ManifestClosurePlanRequest)
  {
    && value.providerID != "" && value.adapterID != "" && value.commandID != "" && value.participantID != ""
    && value.participantVersionID != "" && value.repositoryNodeID != "" && ValidSourceObjectID(value.commitOID)
    && ValidCanonicalSourcePath(value.manifestPath) && value.manifestEntryKind == SOURCE_ENTRY_REGULAR
    && ValidSHA256Digest(value.rawManifestBytesDigest) && value.manifestByteLimit != 0
    && ValidSHA256Digest(value.typedPayloadDigest)
    && DigestJSON(lib, MANIFEST_CLOSURE_PLAN_DOMAIN, ManifestRequestJson(value.(typedPayloadDigest := "")))
       == Some(value.typedPayloadDigest)
  }

  predicate ValidManifestClosurePlanInput(lib: Library, request: ManifestClosurePlanRequest, manifestBytes: string)
  {
    && ValidManifestClosurePlanRequest(lib, request)
    && |manifestBytes| <= request.manifestByteLimit
    && DigestOf(lib.sha256, RAW_MANIFEST_BYTES_DOMAIN, [manifestBytes]) == request.rawManifestBytesDigest
  }

  predicate ValidCandidateClosureRetentionRequest(lib: Library, value: CandidateClosureRetentionRequest)
  {
    && value.providerID != "" && value.adapterID != "" && value.commandID != "" && value.participantID != ""
    && value.participantVersionID != "" && value.repositoryNodeID != "" && ValidSourceObjectID(value.commitOID)
    && value.closurePlanID != "" && ValidSHA256Digest(value.closurePlanDigest)
    && ValidSHA256Digest(value.candidateTransferredBytesDigest) && value.aggregateByteLimit != 0
    && ValidSHA256Digest(value.typedPayloadDigest)
    && DigestJSON(lib, CANDIDATE_CLOSURE_RETENTION_DOMAIN, CandidateRequestJson(value.(typedPayloadDigest := "")))
       == Some(value.typedPayloadDigest)
  }

  predicate ValidArtifactDisclosureVerificationRequest(lib: Library, value: ArtifactDisclosureVerificationRequest)
  {
    && value.providerID != "" && value.adapterID != "" && value.commandID != "" && value.participantID != ""
    && value.participantVersionID != "" && value.repositoryNodeID != "" && ValidSourceObjectID(value.commitOID)
    && value.closurePlanID != "" && ValidSHA256Digest(value.closurePlanDigest) && value.aggregateByteLimit != 0
    && value.retentionReceiptID != "" && ValidSHA256Digest(value.artifactDigest)
    && ValidSHA256Digest(value.publicCandidateTransferredBytesDigest) && ValidSHA256Digest(value.typedPayloadDigest)
    && DigestJSON(lib, ARTIFACT_DISCLOSURE_DOMAIN, DisclosureRequestJson(value.(typedPayloadDigest := "")))
       == Some(value.typedPayloadDigest)
  }

  predicate ValidArtifactPublicationRequest(lib: Library, value: ArtifactPublicationRequest)
  {
    && value.providerID != "" && value.adapterID != "" && value.commandID != "" && value.participantID != ""
    && value.participantVersionID != "" && value.retentionReceiptID != "" && ValidSHA256Digest(value.artifactDigest)
    && value.disclosureReceiptID != "" && ValidSHA256Digest(value.disclosureRequestDigest)
    && ValidSHA256Digest(value.typedPayloadDigest)
    && DigestJSON(lib, ARTIFACT_PUBLICATION_DOMAIN, PublicationRequestJson(value.(typedPayloadDigest := "")))
       == Some(value.typedPayloadDigest)
  }

  // ----- closure plans -----

  predicate PlanHeaderValid(plan: ClosurePlan)
  {
    && plan.closurePlanID != "" && plan.providerID != "" && plan.adapterID != "" && plan.participantID != ""
    && plan.participantVersionID != "" && plan.repositoryNodeID != "" && ValidSourceObjectID(plan.commitOID)
    && ValidCanonicalSourcePath(plan.manifestPath) && plan.manifestEntryKind == SOURCE_ENTRY_REGULAR
    && ValidSHA256Digest(plan.manifestRequestDigest) && ValidSHA256Digest(plan.rawManifestBytesDigest)
    && plan.files != [] && plan.aggregateByteLimit != 0 && ValidSHA256Digest(plan.closurePlanDigest)
  }

  predicate PlannedFileValid(file: PlannedSourceFile)
  {
    ValidCanonicalSourcePath(file.canonicalPath) && file.entryKind == SOURCE_ENTRY_REGULAR && file.byteLimit != 0
  }

  /** Each file is valid, and every path precedes every later path. */
  predicate PlannedFilesValid(files: seq<PlannedSourceFile>)
  {
    && (forall i | 0 <= i < |files| :: PlannedFileValid(files[i]))
    && forall i, j | 0 <= i < j < |files| :: TextLess(files[i].canonicalPath, files[j].canonicalPath)
  }

  predicate PlanDigestMatches(lib: Library, plan: ClosurePlan)
  {
    DigestJSON(lib, CLOSURE_PLAN_DOMAIN, ClosurePlanJson(plan.(closurePlanDigest := "")))
      == Some(plan.closurePlanDigest)
  }

  predicate ValidClosurePlan(lib: Library, plan: ClosurePlan)
  {
    PlanHeaderValid(plan) && PlannedFilesValid(plan.files) && PlanDigestMatches(lib, plan)
  }

  lemma AscendingPathsDiffer(files: seq<PlannedSourceFile>, i: nat, j: nat)
    requires PlannedFilesValid(files) && i < j < |files|
    ensures files[i].canonicalPath != files[j].canonicalPath
  {
    TextLessIrreflexive(files[i].canonicalPath);
  }

  lemma AscendingPrefix(files: seq<PlannedSourceFile>, k: nat)
    requires k <= |files| && PlannedFilesValid(files)
    ensures PlannedFilesValid(files[..k])
  {
    assert forall i | 0 <= i < k :: files[..k][i] == files[i];
  }

  /** Comparing with the previous path alone decides whether the ascending prefix grows. */
  lemma AscendingStep(files: seq<PlannedSourceFile>, k: nat)
    requires k < |files| && PlannedFilesValid(files[..k])
    ensures PlannedFilesValid(files[..k + 1])
       <==> PlannedFileValid(files[k]) && (k > 0 ==> TextLess(files[k - 1].canonicalPath, files[k].canonicalPath))
    ensures PlannedFilesValid(files[..k + 1])
        ==> forall i | 0 <= i < k :: files[i].canonicalPath != files[k].canonicalPath
  {
    hide PlannedFileValid, TextLess;
    var shorter, longer := files[..k], files[..k + 1];
    assert forall i | 0 <= i < k :: longer[i] == shorter[i] == files[i];
    assert longer[k] == files[k];
    if PlannedFileValid(files[k]) && (k > 0 ==> TextLess(files[k - 1].canonicalPath, files[k].canonicalPath)) {
      forall i, j | 0 <= i < j < |longer|
        ensures TextLess(longer[i].canonicalPath, longer[j].canonicalPath)
      {
        if j == k && i < k - 1 {
          TextLessTransitive(shorter[i].canonicalPath, shorter[k - 1].canonicalPath, files[k].canonicalPath);
        }
      }
    }
    if PlannedFilesValid(longer) {
      forall i | 0 <= i < k ensures files[i].canonicalPath != files[k].canonicalPath {
        AscendingPathsDiffer(longer, i, k);
      }
    }
  }

  lemma EmptyPlanPrefix(files: seq<PlannedSourceFile>)
    ensures PlannedFilesValid(files[..0])
  {
  }

  lemma EmptyPathIsNotCanonical(path: string)
    requires ValidCanonicalSourcePath(path)
    ensures path != ""
  {
  }

  /** The `seen` set never changes the verdict: ascending neighbours already make all paths distinct. */
  method ValidateClosurePlan(lib: Library, value: ClosurePlan) returns (ok: bool)
    ensures ok == ValidClosurePlan(lib, value)
  {
    hide PlannedFilesValid, PlanHeaderValid, ValidCanonicalSourcePath, TextLess, DigestOf;
    if !PlanHeaderValid(value) {
      return false;
    }
    var files := value.files;
    var seen: set<string> := {};
    var previousPath := "";
    EmptyPlanPrefix(files);
    for index := 0 to |files|
      invariant PlannedFilesValid(files[..index])
      invariant seen == set i | 0 <= i < index :: files[i].canonicalPath
      invariant previousPath == if index == 0 then "" else files[index - 1].canonicalPath
      invariant index > 0 ==> previousPath != ""
    {
      var file := files[index];
      AscendingStep(files, index);
      if !ValidCanonicalSourcePath(file.canonicalPath) || file.entryKind != SOURCE_ENTRY_REGULAR
         || file.byteLimit == 0 || file.canonicalPath in seen
         || (previousPath != "" && !TextLess(previousPath, file.canonicalPath)) {
        if PlannedFilesValid(files) {
          AscendingPrefix(files, index + 1);
          assert false;
        }
        return false;
      }
      EmptyPathIsNotCanonical(file.canonicalPath);
      seen := seen + {file.canonicalPath};
      previousPath := file.canonicalPath;
    }
    assert files[..|files|] == files;
    var digest := DigestJSON(lib, CLOSURE_PLAN_DOMAIN, ClosurePlanJson(value.(closurePlanDigest := "")));
    return digest == Some(value.closurePlanDigest);
  }

  // ----- transferred files -----

  predicate ValidSourceEntryKind(kind: string)
  {
    kind == SOURCE_ENTRY_REGULAR || kind == SOURCE_ENTRY_SYMLINK || kind == SOURCE_ENTRY_SUBMODULE
  }

  predicate DistinctPaths(files: seq<CandidateSourceFile>)
  {
    forall i, j | 0 <= i < j < |files| :: files[i].canonicalPath != files[j].canonicalPath
  }

  predicate DigestibleFiles(files: seq<CandidateSourceFile>)
  {
    && (forall i | 0 <= i < |files| ::
          ValidCanonicalSourcePath(files[i].canonicalPath) && ValidSourceEntryKind(files[i].entryKind))
    && DistinctPaths(files)
  }

  function FileParts(files: seq<CandidateSourceFile>): seq<string>
  {
    if files == [] then []
    else [files[0].canonicalPath, files[0].entryKind, files[0].bytes] + FileParts(files[1..])
  }

  function TransferParts(files: seq<CandidateSourceFile>): seq<string>
  {
    [BigEndian(ToUint64(|files|), 8)] + FileParts(files)
  }

  /** `None` is the digest function's error. */
  function TransferDigest(lib: Library, files: seq<CandidateSourceFile>): Option<string>
  {
    if files == [] || !DigestibleFiles(files) then None
    else Some(DigestOf(lib.sha256, CANDIDATE_TRANSFERRED_BYTES_DOMAIN, TransferParts(files)))
  }

  lemma {:induction false} FilePartsAppend(files: seq<CandidateSourceFile>, file: CandidateSourceFile)
    ensures FileParts(files + [file]) == FileParts(files) + [file.canonicalPath, file.entryKind, file.bytes]
  {
    if files == [] {
      assert FileParts([file]) == [file.canonicalPath, file.entryKind, file.bytes] + FileParts([file][1..]);
    } else {
      assert (files + [file])[1..] == files[1..] + [file];
      FilePartsAppend(files[1..], file);
    }
  }

  method DigestCandidateTransferredFiles(lib: Library, files: seq<CandidateSourceFile>)
    returns (digest: Option<string>)
    ensures digest == TransferDigest(lib, files)
    ensures digest.Some? ==> ValidSHA256Digest(digest.value)
  {
    hide BigEndian, ValidCanonicalSourcePath, DigestOf;
    if |files| == 0 {
      return None;
    }
    var count := BigEndian(ToUint64(|files|), 8);
    var parts := [count];
    var seen: set<string> := {};
    for index := 0 to |files|
      invariant parts == [count] + FileParts(files[..index])
      invariant seen == set i | 0 <= i < index :: files[i].canonicalPath
      invariant DigestibleFiles(files[..index])
    {
      var file := files[index];
      assert files[..index + 1] == files[..index] + [file];
      if !ValidCanonicalSourcePath(file.canonicalPath) || !ValidSourceEntryKind(file.entryKind)
         || file.canonicalPath in seen {
        return None;
      }
      seen := seen + {file.canonicalPath};
      FilePartsAppend(files[..index], file);
      parts := parts + [file.canonicalPath, file.entryKind, file.bytes];
    }
    assert files[..|files|] == files;
    var text := DigestParts(lib.sha256, CANDIDATE_TRANSFERRED_BYTES_DOMAIN, parts);
    return Some(text);
  }

  lemma {:induction false} FilePartsInjective(a: seq<CandidateSourceFile>, b: seq<CandidateSourceFile>)
    requires FileParts(a) == FileParts(b)
    ensures a == b
  {
    if a == [] || b == [] {
    } else {
      var pa, pb := FileParts(a), FileParts(b);
      assert pa[0] == pb[0] && pa[1] == pb[1] && pa[2] == pb[2];
      assert pa[3..] == FileParts(a[1..]) && pb[3..] == FileParts(b[1..]);
      FilePartsInjective(a[1..], b[1..]);
      assert a == [a[0]] + a[1..] && b == [b[0]] + b[1..];
    }
  }

  /** Three parts a file: its path, its entry kind and its bytes. */
  lemma {:induction false} FilePartsAt(files: seq<CandidateSourceFile>, i: nat)
    requires i < |files|
    ensures |FileParts(files)| == 3 * |files|
    ensures FileParts(files)[3 * i..3 * i + 3] == [files[i].canonicalPath, files[i].entryKind, files[i].bytes]
  {
    var parts := FileParts(files);
    assert parts[3..] == FileParts(files[1..]);
    if |files| == 1 {
      assert FileParts(files[1..]) == [];
    } else {
      FilePartsAt(files[1..], if i == 0 then 0 else i - 1);
      assert i > 0 ==> parts[3 * i..3 * i + 3] == parts[3..][3 * (i - 1)..3 * (i - 1) + 3];
    }
  }

  /** Equal transfer digests mean the same files in the same order, short of a SHA-256 collision. */
  lemma TransferDigestDetermines(lib: Library, a: seq<CandidateSourceFile>, b: seq<CandidateSourceFile>)
    requires TransferDigest(lib, a).Some? && TransferDigest(lib, b).Some?
    requires Addressable([CANDIDATE_TRANSFERRED_BYTES_DOMAIN] + TransferParts(a))
    requires Addressable([CANDIDATE_TRANSFERRED_BYTES_DOMAIN] + TransferParts(b))
    requires CollisionFree(lib.sha256,
                           Preimage(CANDIDATE_TRANSFERRED_BYTES_DOMAIN, TransferParts(a)),
                           Preimage(CANDIDATE_TRANSFERRED_BYTES_DOMAIN, TransferParts(b)))
    ensures TransferDigest(lib, a) == TransferDigest(lib, b) <==> a == b
  {
    if TransferDigest(lib, a) == TransferDigest(lib, b) {
      DigestDetermines(lib.sha256, CANDIDATE_TRANSFERRED_BYTES_DOMAIN, TransferParts(a),
                       CANDIDATE_TRANSFERRED_BYTES_DOMAIN, TransferParts(b));
      assert TransferParts(a)[1..] == FileParts(a) && TransferParts(b)[1..] == FileParts(b);
      FilePartsInjective(a, b);
    }
  }

  // ----- a transfer against its plan -----

  /** The sum of the file sizes as a mathematical integer. */
  function TotalSize(files: seq<CandidateSourceFile>): nat
  {
    if files == [] then 0 else TotalSize(files[..|files| - 1]) + |files[|files| - 1].bytes|
  }

  lemma {:induction false} TotalSizeMonotone(files: seq<CandidateSourceFile>, k: nat)
    requires k <= |files|
    ensures TotalSize(files[..k]) <= TotalSize(files)
  {
    if k == |files| {
      assert files[..k] == files;
    } else {
      var init := files[..|files| - 1];
      assert init[..k] == files[..k];
      TotalSizeMonotone(init, k);
    }
  }

  /** The size of a transfer is the sum over its parts, and of one file the number of its bytes. */
  lemma {:induction false} TotalSizeAdds(a: seq<CandidateSourceFile>, b: seq<CandidateSourceFile>)
    ensures TotalSize(a + b) == TotalSize(a) + TotalSize(b)
    ensures |b| == 1 ==> TotalSize(b) == |b[0].bytes|
    decreases |b|
  {
    if b == [] {
      assert a + b == a;
    } else {
      var init := b[..|b| - 1];
      assert (a + b)[..|a + b| - 1] == a + init;
      TotalSizeAdds(a, init);
      assert |b| == 1 ==> init == [];
    }
  }

  predicate FileFits(planned: PlannedSourceFile, file: CandidateSourceFile)
  {
    && file.canonicalPath == planned.canonicalPath
    && file.entryKind == planned.entryKind == SOURCE_ENTRY_REGULAR
    && |file.bytes| <= planned.byteLimit
  }

  predicate FilesFit(planned: seq<PlannedSourceFile>, files: seq<CandidateSourceFile>)
    requires |planned| == |files|
  {
    forall i | 0 <= i < |files| :: FileFits(planned[i], files[i])
  }

  predicate TransferFits(lib: Library, plan: ClosurePlan, files: seq<CandidateSourceFile>, expectedDigest: string,
                         aggregateByteLimit: uint64)
  {
    && |files| == |plan.files| && FilesFit(plan.files, files)
    && TotalSize(files) <= aggregateByteLimit
    && TransferDigest(lib, files) == Some(expectedDigest)
  }

  lemma MisfitRejected(planned: seq<PlannedSourceFile>, files: seq<CandidateSourceFile>, i: nat)
    requires |planned| == |files| && i < |files|
    ensures !FileFits(planned[i], files[i]) ==> !FilesFit(planned, files)
  {
  }

  lemma AllFitAccepted(planned: seq<PlannedSourceFile>, files: seq<CandidateSourceFile>)
    requires |planned| == |files| && forall i | 0 <= i < |files| :: FileFits(planned[i], files[i])
    ensures FilesFit(planned, files)
  {
  }

  /** The running total and the subtraction are Go's, modulo 2^64; neither ever wraps. */
  method ValidateTransferAgainstPlan(lib: Library, plan: ClosurePlan, files: seq<CandidateSourceFile>,
                                     expectedDigest: string, aggregateByteLimit: uint64) returns (ok: bool)
    requires forall i | 0 <= i < |files| :: |files[i].bytes| < TWO63
    ensures ok == TransferFits(lib, plan, files, expectedDigest, aggregateByteLimit)
  {
    hide TransferDigest, DigestOf, FilesFit;
    if |files| != |plan.files| {
      return false;
    }
    var total: uint64 := 0;
    for index := 0 to |files|
      invariant total == TotalSize(files[..index]) <= aggregateByteLimit
      invariant forall i | 0 <= i < index :: FileFits(plan.files[i], files[i])
    {
      var file, planned := files[index], plan.files[index];
      var size := ToUint64(|file.bytes|);
      assert files[..index + 1][..index] == files[..index];
      assert TotalSize(files[..index + 1]) == total + size;
      TotalSizeMonotone(files, index + 1);
      if file.canonicalPath != planned.canonicalPath || file.entryKind != planned.entryKind
         || file.entryKind != SOURCE_ENTRY_REGULAR || size > planned.byteLimit || size > aggregateByteLimit
         || total > ToUint64(aggregateByteLimit - size) {
        MisfitRejected(plan.files, files, index);
        return false;
      }
      total := ToUint64(total + size);
    }
    AllFitAccepted(plan.files, files);
    assert files[..|files|] == files;
    var digest := DigestCandidateTransferredFiles(lib, files);
    return digest == Some(expectedDigest);
  }

  lemma FittingFilesAreDigestible(planned: seq<PlannedSourceFile>, files: seq<CandidateSourceFile>)
    requires |planned| == |files| && PlannedFilesValid(planned) && FilesFit(planned, files)
    ensures DigestibleFiles(files)
  {
    hide ValidCanonicalSourcePath, TextLess;
    forall i | 0 <= i < |files|
      ensures ValidCanonicalSourcePath(files[i].canonicalPath) && ValidSourceEntryKind(files[i].entryKind)
    {
      assert FileFits(planned[i], files[i]) && PlannedFileValid(planned[i]);
    }
    forall i, j | 0 <= i < j < |files| ensures files[i].canonicalPath != files[j].canonicalPath {
      AscendingPathsDiffer(planned, i, j);
      assert FileFits(planned[i], files[i]) && FileFits(planned[j], files[j]);
    }
  }

  /** Against a valid plan the digest function's error cannot occur: the plan's ascending paths make
      the transferred paths canonical and distinct. So acceptance is exactly the four listed facts. */
  lemma TransferAgainstValidPlan(lib: Library, plan: ClosurePlan, files: seq<CandidateSourceFile>,
                                 expectedDigest: string, aggregateByteLimit: uint64)
    requires ValidClosurePlan(lib, plan)
    ensures |files| == |plan.files| && FilesFit(plan.files, files) ==> TransferDigest(lib, files).Some?
    ensures TransferFits(lib, plan, files, expectedDigest, aggregateByteLimit)
       <==> && |files| == |plan.files| && FilesFit(plan.files, files)
            && TotalSize(files) <= aggregateByteLimit
            && expectedDigest == DigestOf(lib.sha256, CANDIDATE_TRANSFERRED_BYTES_DOMAIN, TransferParts(files))
  {
    hide DigestibleFiles, TransferParts, DigestOf, PlannedFilesValid, ValidSourceObjectID, ValidSHA256Digest,
         FilesFit, TotalSize, ValidCanonicalSourcePath, PlanDigestMatches;
    if |files| == |plan.files| && FilesFit(plan.files, files) {
      FittingFilesAreDigestible(plan.files, files);
    }
  }

  predicate ValidCandidateClosureInput(lib: Library, request: CandidateClosureRetentionRequest, plan: ClosurePlan,
                                       files: seq<CandidateSourceFile>)
  {
    && ValidCandidateClosureRetentionRequest(lib, request) && ValidClosurePlan(lib, plan)
    && request.providerID == plan.providerID && request.adapterID == plan.adapterID
    && request.participantID == plan.participantID && request.participantVersionID == plan.participantVersionID
    && request.repositoryNodeID == plan.repositoryNodeID && request.commitOID == plan.commitOID
    && request.closurePlanID == plan.closurePlanID && request.closurePlanDigest == plan.closurePlanDigest
    && request.aggregateByteLimit == plan.aggregateByteLimit
    && TransferFits(lib, plan, files, request.candidateTransferredBytesDigest, request.aggregateByteLimit)
  }

  predicate ValidArtifactDisclosureInput(lib: Library, request: ArtifactDisclosureVerificationRequest,
                                         plan: ClosurePlan, files: seq<CandidateSourceFile>)
  {
    && ValidArtifactDisclosureVerificationRequest(lib, request) && ValidClosurePlan(lib, plan)
    && request.providerID == plan.providerID && request.adapterID == plan.adapterID
    && request.participantID == plan.participantID && request.participantVersionID == plan.participantVersionID
    && request.repositoryNodeID == plan.repositoryNodeID && request.commitOID == plan.commitOID
    && request.closurePlanID == plan.closurePlanID && request.closurePlanDigest == plan.closurePlanDigest
    && request.aggregateByteLimit == plan.aggregateByteLimit
    && TransferFits(lib, plan, files, request.publicCandidateTransferredBytesDigest, request.aggregateByteLimit)
  }

  // ----- receipts -----

  predicate ValidClosurePlanReceiptForRequest(lib: Library, receipt: ClosurePlanReceipt,
                                              request: ManifestClosurePlanRequest)
  {
    && ValidManifestClosurePlanRequest(lib, request) && ValidClosurePlan(lib, receipt.plan)
    && receipt.providerID == request.providerID && receipt.adapterID == request.adapterID
    && receipt.commandID == request.commandID && receipt.participantID == request.participantID
    && receipt.participantVersionID == request.participantVersionID
    && receipt.requestPayloadDigest == request.typedPayloadDigest
    && receipt.plan.providerID == request.providerID && receipt.plan.adapterID == request.adapterID
    && receipt.plan.participantID == request.participantID
    && receipt.plan.participantVersionID == request.participantVersionID
    && receipt.plan.repositoryNodeID == request.repositoryNodeID && receipt.plan.commitOID == request.commitOID
    && receipt.plan.manifestPath == request.manifestPath
    && receipt.plan.manifestEntryKind == request.manifestEntryKind
    && receipt.plan.manifestRequestDigest == request.typedPayloadDigest
    && receipt.plan.rawManifestBytesDigest == request.rawManifestBytesDigest
  }

  predicate ValidArtifactRetentionReceiptForRequest(lib: Library, receipt: ArtifactRetentionReceipt,
                                                    request: CandidateClosureRetentionRequest)
  {
    && ValidCandidateClosureRetentionRequest(lib, request) && receipt.receiptID != ""
    && receipt.providerID == request.providerID && receipt.adapterID == request.adapterID
    && receipt.commandID == request.commandID && receipt.participantID == request.participantID
    && receipt.participantVersionID == request.participantVersionID
    && receipt.closurePlanID == request.closurePlanID && receipt.closurePlanDigest == request.closurePlanDigest
    && receipt.candidateRequestDigest == request.typedPayloadDigest && ValidSHA256Digest(receipt.artifactDigest)
  }

  predicate ValidArtifactDisclosureReceiptForRequest(lib: Library, receipt: ArtifactDisclosureVerificationReceipt,
                                                     request: ArtifactDisclosureVerificationRequest)
  {
    && ValidArtifactDisclosureVerificationRequest(lib, request) && receipt.receiptID != ""
    && receipt.providerID == request.providerID && receipt.adapterID == request.adapterID
    && receipt.commandID == request.commandID && receipt.participantID == request.participantID
    && receipt.participantVersionID == request.participantVersionID
    && receipt.retentionReceiptID == request.retentionReceiptID && receipt.artifactDigest == request.artifactDigest
    && receipt.verificationRequestDigest == request.typedPayloadDigest && receipt.verifiedAt != ZERO_TIME
  }

  predicate ValidArtifactPublicationReceiptForRequest(lib: Library, receipt: ArtifactPublicationReceipt,
                                                      request: ArtifactPublicationRequest)
  {
    && ValidArtifactPublicationRequest(lib, request) && receipt.receiptID != ""
    && receipt.providerID == request.providerID && receipt.adapterID == request.adapterID
    && receipt.commandID == request.commandID && receipt.participantID == request.participantID
    && receipt.participantVersionID == request.participantVersionID
    && receipt.retentionReceiptID == request.retentionReceiptID
    && receipt.disclosureReceiptID == request.disclosureReceiptID
    && receipt.disclosureRequestDigest == request.disclosureRequestDigest
    && receipt.publicationRequestDigest == request.typedPayloadDigest
    && receipt.artifactDigest == request.artifactDigest && receipt.publishedAt != ZERO_TIME
    && lib.validPublicReference(receipt.publicReference)
  }

  predicate ValidRetentionReceipt(receipt: ArtifactRetentionReceipt)
  {
    && receipt.receiptID != "" && receipt.providerID != "" && receipt.adapterID != "" && receipt.commandID != ""
    && receipt.participantID != "" && receipt.participantVersionID != "" && receipt.closurePlanID != ""
    && ValidSHA256Digest(receipt.closurePlanDigest) && ValidSHA256Digest(receipt.candidateRequestDigest)
    && ValidSHA256Digest(receipt.artifactDigest)
  }

  predicate ValidArtifactPublicationPrerequisites(
    lib: Library, publication: ArtifactPublicationRequest, retention: ArtifactRetentionReceipt,
    disclosureRequest: ArtifactDisclosureVerificationRequest,
    disclosureReceipt: ArtifactDisclosureVerificationReceipt)
  {
    && ValidArtifactPublicationRequest(lib, publication) && ValidRetentionReceipt(retention)
    && ValidArtifactDisclosureReceiptForRequest(lib, disclosureReceipt, disclosureRequest)
    && disclosureReceipt.verdict == Matched
    && publication.providerID == retention.providerID && publication.adapterID == retention.adapterID
    && publication.participantID == retention.participantID
    && publication.participantVersionID == retention.participantVersionID
    && publication.retentionReceiptID == retention.receiptID
    && publication.artifactDigest == retention.artifactDigest
    && publication.disclosureReceiptID == disclosureReceipt.receiptID
    && publication.disclosureRequestDigest == disclosureRequest.typedPayloadDigest
    && disclosureRequest.providerID == retention.providerID && disclosureRequest.adapterID == retention.adapterID
    && disclosureRequest.participantID == retention.participantID
    && disclosureRequest.participantVersionID == retention.participantVersionID
    && disclosureRequest.retentionReceiptID == retention.receiptID
    && disclosureRequest.artifactDigest == retention.artifactDigest
    && disclosureRequest.closurePlanID == retention.closurePlanID
    && disclosureRequest.closurePlanDigest == retention.closurePlanDigest
    && disclosureReceipt.providerID == retention.providerID && disclosureReceipt.adapterID == retention.adapterID
    && disclosureReceipt.participantID == retention.participantID
    && disclosureReceipt.participantVersionID == retention.participantVersionID
    && disclosureReceipt.retentionReceiptID == retention.receiptID
    && disclosureReceipt.artifactDigest == retention.artifactDigest
  }
}
