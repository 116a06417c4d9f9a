/** Which frozen requests can be completed at all. */
module Completion {
  import opened Primitives
  import opened ContractTypes
  import opened DigestFraming
  import opened Combinatorics
  import opened Placements
  import opened Execution

  /** Everybody shares the first rank, in slot order. */
  function TiedPlacements(entries: seq<string>): (ps: seq<Placement>)
    requires |entries| <= TWO16
    ensures |ps| == |entries|
  {
    seq(|entries|, i requires 0 <= i < |entries| => Placement(i, entries[i], 1, Finished))
  }

  lemma TiedPlacementsAreValid(entries: seq<string>)
    requires 0 < |entries| <= TWO16 && Distinct(entries) && "" !in entries
    ensures ValidPlacements(TiedPlacements(entries)) && PlacementsBind(TiedPlacements(entries), entries)
  {
    var ps := TiedPlacements(entries);
    assert EntryIDs(ps) == entries;
    CountBelowSplit(ps, 1, 0);
  }

  function SomeDigest(lib: Library): (d: string)
    ensures ValidSHA256Digest(d)
  {
    DigestText(lib.sha256(""))
  }

  function EvidenceFor(lib: Library, profile: ExecutionProfile): CompletionEvidence
    requires ValidExecutionProfile(profile)
  {
    var d := SomeDigest(lib);
    var replay := TerminalReplay(ReplayUnavailable, "");
    if profile.kind.ProviderExecutedKind? then
      var p := profile.providerExecuted.value;
      CompletionEvidence(
        ProviderExecutedKind, replay,
        Some(RecordedProvenance(
          SlotArtifacts(p.slots),
          DigestOf(lib.sha256, PROVIDER_CONFIGURATION_DOMAIN, [p.configuration.version, p.configuration.data]),
          d, d, d, d, d, d)),
        None)
    else
      CompletionEvidence(ParticipantScheduledKind, replay, None, Some(ScheduledEvidence("", "")))
  }

  lemma ConfigurationDigestValid(lib: Library, c: ProviderConfiguration)
    ensures ValidSHA256Digest(DigestOf(lib.sha256, PROVIDER_CONFIGURATION_DOMAIN, [c.version, c.data]))
  {
    hide Preimage;
  }

  lemma EvidenceIsValid(lib: Library, profile: ExecutionProfile)
    requires ValidExecutionProfile(profile)
    ensures ValidCompletionEvidence(EvidenceFor(lib, profile), |RequestEntries(profile)|)
    ensures EvidenceBinds(lib, EvidenceFor(lib, profile), profile)
  {
    if profile.kind.ProviderExecutedKind? {
      var p := profile.providerExecuted.value;
      ConfigurationDigestValid(lib, p.configuration);
      hide DigestOf, ValidSHA256Digest;
      forall i | 0 <= i < |p.slots| ensures ValidSHA256Digest(SlotArtifacts(p.slots)[i]) {
        assert ProviderSlotShape(p.slots[i]);
      }
    }
  }

  lemma EntriesAreNamed(profile: ExecutionProfile)
    requires ValidExecutionProfile(profile)
    ensures "" !in RequestEntries(profile)
  {
    hide ValidSHA256Digest;
    match profile.kind {
      case ProviderExecutedKind =>
        var slots := profile.providerExecuted.value.slots;
        forall i | 0 <= i < |slots| ensures slots[i].entryID != "" {
          assert ProviderSlotShape(slots[i]);
        }
      case ParticipantScheduledKind =>
        var slots := profile.participantScheduled.value.slots;
        forall i | 0 <= i < |slots| ensures slots[i].entryID != "" {
          assert ScheduledSlotShape(slots[i]);
        }
    }
  }

  /** The completed event of a contest that everybody ties. */
  function CompletedEventFor(lib: Library, request: ExecutionRequest, receipt: ExecutionReceipt): ExecutionEvent
    requires ValidExecutionProfile(request.profile) && |RequestEntries(request.profile)| <= TWO16
  {
    var result := ExecutionResult(TiedPlacements(RequestEntries(request.profile)), EvidenceFor(lib, request.profile));
    var payload := ExecutionEvent(
      "event", Completed, request.competitionID, request.contestID, request.id, request.providerID, request.adapterID,
      receipt.providerInstanceID, "command", 1, Some(result), None, "");
    match SourceOperations.DigestJSON(lib, EXECUTION_EVENT_DOMAIN, ExecutionEventJson(payload))
    case None => payload
    case Some(digest) => payload.(typedPayloadDigest := digest)
  }

  /** The payload of that event, an instant after Go's zero time, has a JSON encoding. */
  predicate EventEncodes(lib: Library, request: ExecutionRequest, receipt: ExecutionReceipt)
    requires ValidExecutionProfile(request.profile) && |RequestEntries(request.profile)| <= TWO16
  {
    lib.marshal(ExecutionEventJson(CompletedEventFor(lib, request, receipt).(typedPayloadDigest := ""))).Some?
  }

  lemma EventDigestValid(lib: Library, payload: ExecutionEvent)
    ensures var digest := SourceOperations.DigestJSON(lib, EXECUTION_EVENT_DOMAIN, ExecutionEventJson(payload));
            digest.Some? ==> ValidSHA256Digest(digest.value)
  {
    hide Preimage;
  }

  lemma RequestProfileShape(lib: Library, request: ExecutionRequest, receipt: ExecutionReceipt)
    requires ValidExecutionReceiptForRequest(lib, receipt, request)
    ensures ValidExecutionProfile(request.profile)
    ensures request.profile.kind.ProviderExecutedKind? ==> request.profile.providerExecuted.Some?
    ensures request.profile.kind.ParticipantScheduledKind? ==> request.profile.participantScheduled.Some?
  {
    hide ProviderProfileValid, ScheduledSlotsValid, ValidSafeReference;
  }

  lemma CompletedEventIsValid(lib: Library, request: ExecutionRequest, receipt: ExecutionReceipt)
    requires ValidExecutionReceiptForRequest(lib, receipt, request) && |RequestEntries(request.profile)| <= TWO16
    requires EventEncodes(lib, request, receipt)
    ensures ValidExecutionEventForExecution(lib, CompletedEventFor(lib, request, receipt), request, receipt)
    ensures CompletedEventFor(lib, request, receipt).kind == Completed
  {
    hide DigestOf, ValidSHA256Digest, ValidExecutionProfile, EvidenceFor, ValidCompletionEvidence, EvidenceBinds,
         ValidPlacements, TiedPlacements, PlacementsBind, RequestEntries, ValidSafeReference;
    RequestProfileShape(lib, request, receipt);
    var entries := RequestEntries(request.profile);
    RequestEntriesDistinct(request.profile);
    EntriesAreNamed(request.profile);
    TiedPlacementsAreValid(entries);
    EvidenceIsValid(lib, request.profile);
    EventDigestValid(lib, CompletedEventFor(lib, request, receipt).(typedPayloadDigest := ""));
  }

  /** Without any condition on the encoder: a request of more than 65536 slots is never completed. */
  lemma OversizedIsNeverCompleted(lib: Library, event: ExecutionEvent, request: ExecutionRequest,
                                  receipt: ExecutionReceipt)
    requires ValidExecutionReceiptForRequest(lib, receipt, request) && |RequestEntries(request.profile)| > TWO16
    ensures !(event.kind == Completed && ValidExecutionEventForExecution(lib, event, request, receipt))
  {
    hide ValidExecutionEventForExecution, ValidExecutionReceiptForRequest, ValidExecutionRequest;
    if event.kind == Completed && ValidExecutionEventForExecution(lib, event, request, receipt) {
      CompletedEventIsAPermutation(lib, event, request, receipt);
      assert false;
    }
  }

  /** Some completed event can be accepted for a valid request and receipt exactly when the request freezes at most
      65536 slots. The one event in which everybody ties must have a JSON encoding. */
  lemma CompletableExactly(lib: Library, request: ExecutionRequest, receipt: ExecutionReceipt)
    requires ValidExecutionReceiptForRequest(lib, receipt, request)
    requires |RequestEntries(request.profile)| <= TWO16 ==> EventEncodes(lib, request, receipt)
    ensures (exists event: ExecutionEvent ::
               event.kind == Completed && ValidExecutionEventForExecution(lib, event, request, receipt))
       <==> |RequestEntries(request.profile)| <= TWO16
  {
    hide ValidExecutionEventForExecution, ValidExecutionReceiptForRequest, ValidExecutionRequest, EventEncodes;
    RequestProfileShape(lib, request, receipt);
    if event: ExecutionEvent
      :| event.kind == Completed && ValidExecutionEventForExecution(lib, event, request, receipt) {
      CompletedEventIsAPermutation(lib, event, request, receipt);
    }
    if |RequestEntries(request.profile)| <= TWO16 {
      CompletedEventIsValid(lib, request, receipt);
    }
  }

  // ----- the requests that cannot be completed exist -----

  /** A scheduled slot for each number below n, with one participant of its own. */
  function NumberedSlots(n: nat): seq<ScheduledSlot>
  {
    seq(n, i requires 0 <= i < n => ScheduledSlot(ToUint16(i), Decimal(i), [Decimal(i)], ""))
  }

  lemma {:induction false} NumberedParticipants(n: nat)
    ensures AllParticipants(NumberedSlots(n)) == ScheduledEntries(NumberedSlots(n))
  {
    hide Decimal;
    if n == 0 {
    } else {
      NumberedParticipants(n - 1);
      assert NumberedSlots(n)[..n - 1] == NumberedSlots(n - 1);
    }
  }

  function NumberedProfile(n: nat): ExecutionProfile
  {
    ExecutionProfile(ParticipantScheduledKind, None, Some(ParticipantScheduledProfile(1, NumberedSlots(n))))
  }

  lemma NumberedProfileIsValid(n: nat)
    requires n > 0
    ensures ValidExecutionProfile(NumberedProfile(n)) && |RequestEntries(NumberedProfile(n))| == n
  {
    hide Decimal, AllParticipants;
    var slots := NumberedSlots(n);
    NumberedParticipants(n);
    forall i, j | 0 <= i < j < n ensures ScheduledEntries(slots)[i] != ScheduledEntries(slots)[j] {
      if Decimal(i) == Decimal(j) {
        DecimalInjective(i, j);
        assert false;
      }
    }
    forall i | 0 <= i < n ensures ScheduledEntries(slots)[i] != "" {
      assert Decimal(i) != "";
    }
  }

  /** A request of n slots, valid but for its digest. */
  function NumberedPayload(n: nat): ExecutionRequest
  {
    ExecutionRequest("request", "provider", "adapter", "competition", "contest", "command", "game", "rules",
                     NumberedProfile(n), [], "callback", "")
  }

  function NumberedReceipt(): ExecutionReceipt
  {
    ExecutionReceipt("request", "command", "provider", "adapter", "instance", Accepted, [])
  }

  lemma RequestDigestValid(lib: Library, payload: ExecutionRequest)
    ensures var digest := SourceOperations.DigestJSON(lib, EXECUTION_REQUEST_DOMAIN, ExecutionRequestJson(payload));
            digest.Some? ==> ValidSHA256Digest(digest.value)
  {
    hide Preimage;
  }

  /** Any number of slots makes a valid request with a valid receipt, for every encoder that encodes it. */
  lemma EveryLengthIsRequestable(lib: Library, n: nat) returns (request: ExecutionRequest, receipt: ExecutionReceipt)
    requires n > 0 && lib.marshal(ExecutionRequestJson(NumberedPayload(n))).Some?
    ensures ValidExecutionReceiptForRequest(lib, receipt, request) && |RequestEntries(request.profile)| == n
  {
    hide ValidExecutionProfile, RequestEntries, NumberedProfile, ValidSHA256Digest, DigestOf;
    NumberedProfileIsValid(n);
    RequestDigestValid(lib, NumberedPayload(n));
    var digest := SourceOperations.DigestJSON(lib, EXECUTION_REQUEST_DOMAIN, ExecutionRequestJson(NumberedPayload(n)));
    request, receipt := NumberedPayload(n).(typedPayloadDigest := digest.value), NumberedReceipt();
    assert request.(typedPayloadDigest := "") == NumberedPayload(n);
  }

  /** The failing input: a valid request of 65537 slots with a valid receipt, which no event completes. */
  lemma UncompletableRequest() returns (lib: Library, request: ExecutionRequest, receipt: ExecutionReceipt)
    ensures ValidExecutionReceiptForRequest(lib, receipt, request) && |RequestEntries(request.profile)| == TWO16 + 1
    ensures forall event: ExecutionEvent ::
              event.kind == Completed ==> !ValidExecutionEventForExecution(lib, event, request, receipt)
  {
    hide ValidExecutionEventForExecution, ValidExecutionReceiptForRequest, NumberedPayload;
    lib := ConstantLibrary();
    request, receipt := EveryLengthIsRequestable(lib, TWO16 + 1);
    forall event: ExecutionEvent | event.kind == Completed
      ensures !ValidExecutionEventForExecution(lib, event, request, receipt)
    {
      OversizedIsNeverCompleted(lib, event, request, receipt);
    }
  }
}
