/** Execution requests, receipts and lifecycle events. */
module Execution {
  import opened Primitives
  import opened ContractTypes
  import opened DigestFraming
  import opened JsonText
  import opened Combinatorics
  import opened Placements
  import SourceOperations

  const EXECUTION_REQUEST_DOMAIN := "competios.execution-request-payload.v1"
  const EXECUTION_EVENT_DOMAIN := "competios.execution-event-payload.v1"
  const PROVIDER_CONFIGURATION_DOMAIN := "competios.provider-configuration.v1"
  const TERMINAL_REPLAY := "terminal-replay"
  const MAX_DISPLAY_NAME_BYTES := 256

  // ----- execution profiles -----

  predicate ProviderSlotShape(slot: ExecutionSlot)
  {
    && slot.entryID != "" && slot.participantID != "" && slot.participantVersionID != ""
    && ValidSHA256Digest(slot.artifactDigest)
  }

  function ProviderEntries(slots: seq<ExecutionSlot>): seq<string>
  {
    seq(|slots|, i requires 0 <= i < |slots| => slots[i].entryID)
  }

  function ProviderVersions(slots: seq<ExecutionSlot>): seq<string>
  {
    seq(|slots|, i requires 0 <= i < |slots| => slots[i].participantVersionID)
  }

  /** Consecutive ordinals from 0, at most 65536 of them; entries and versions without repetition. */
  predicate ProviderSlotsValid(slots: seq<ExecutionSlot>)
  {
    && |slots| <= TWO16
    && (forall i | 0 <= i < |slots| :: slots[i].ordinal == i && ProviderSlotShape(slots[i]))
    && Distinct(ProviderEntries(slots)) && Distinct(ProviderVersions(slots))
  }

  predicate ProviderProfileValid(profile: ProviderExecutedProfile)
  {
    && profile.configuration.version != "" && profile.slots != []
    && (profile.deadline == ZERO_TIME || profile.notBefore == ZERO_TIME || profile.notBefore <= profile.deadline)
    && ProviderSlotsValid(profile.slots)
  }

  predicate ScheduledSlotShape(slot: ScheduledSlot)
  {
    && slot.entryID != "" && slot.participants != []
    && |slot.displayName| <= MAX_DISPLAY_NAME_BYTES && ValidUTF8(slot.displayName)
  }

  function ScheduledEntries(slots: seq<ScheduledSlot>): seq<string>
  {
    seq(|slots|, i requires 0 <= i < |slots| => slots[i].entryID)
  }

  /** All participants of all slots, in order. */
  function AllParticipants(slots: seq<ScheduledSlot>): seq<string>
  {
    if slots == [] then []
    else AllParticipants(slots[..|slots| - 1]) + slots[|slots| - 1].participants
  }

  /** Ordinals are only compared modulo 2^16; no participant appears twice anywhere. */
  predicate ScheduledSlotsValid(slots: seq<ScheduledSlot>)
  {
    && (forall i | 0 <= i < |slots| :: slots[i].ordinal == ToUint16(i) && ScheduledSlotShape(slots[i]))
    && Distinct(ScheduledEntries(slots))
    && Distinct(AllParticipants(slots)) && "" !in AllParticipants(slots)
  }

  predicate ValidExecutionProfile(profile: ExecutionProfile)
  {
    match profile.kind
    case ProviderExecutedKind =>
      && profile.providerExecuted.Some? && profile.participantScheduled.None?
      && ProviderProfileValid(profile.providerExecuted.value)
    case ParticipantScheduledKind =>
      && profile.participantScheduled.Some? && profile.providerExecuted.None?
      && profile.participantScheduled.value.startsAt != ZERO_TIME && profile.participantScheduled.value.slots != []
      && ScheduledSlotsValid(profile.participantScheduled.value.slots)
    case UnknownProfileKind(_) => false
  }

  /** What the scan checks at position `i`. */
  predicate ProviderSlotFollows(slots: seq<ExecutionSlot>, i: nat)
    requires i < |slots|
  {
    && slots[i].ordinal == ToUint16(i) && ProviderSlotShape(slots[i])
    && forall j | 0 <= j < i ::
         && slots[j].ordinal != slots[i].ordinal && slots[j].entryID != slots[i].entryID
         && slots[j].participantVersionID != slots[i].participantVersionID
  }

  lemma WrappedOrdinalStopsScan(slots: seq<ExecutionSlot>)
    requires |slots| > TWO16
    ensures !ProviderSlotFollows(slots, 0) || !ProviderSlotFollows(slots, TWO16)
  {
    assert ToUint16(TWO16) == ToUint16(0);
  }

  /** Distinct sixteen-bit ordinals stop the scan at 65536 slots, before an ordinal can wrap. */
  lemma ProviderScanIsExact(slots: seq<ExecutionSlot>)
    ensures (forall i | 0 <= i < |slots| :: ProviderSlotFollows(slots, i)) <==> ProviderSlotsValid(slots)
  {
    hide ProviderSlotShape;
    var entries, versions := ProviderEntries(slots), ProviderVersions(slots);
    if forall i | 0 <= i < |slots| :: ProviderSlotFollows(slots, i) {
      if |slots| > TWO16 {
        WrappedOrdinalStopsScan(slots);
        assert false;
      }
      forall i, j | 0 <= i < j < |slots| ensures entries[i] != entries[j] && versions[i] != versions[j] {
        assert ProviderSlotFollows(slots, j);
      }
      forall i | 0 <= i < |slots| ensures slots[i].ordinal == i && ProviderSlotShape(slots[i]) {
        assert ProviderSlotFollows(slots, i);
      }
    }
    if ProviderSlotsValid(slots) {
      forall i | 0 <= i < |slots| ensures ProviderSlotFollows(slots, i) {
        forall j | 0 <= j < i
          ensures slots[j].entryID != slots[i].entryID && slots[j].participantVersionID != slots[i].participantVersionID
        {
          assert entries[j] != entries[i] && versions[j] != versions[i];
        }
      }
    }
  }

  method ValidateProviderSlots(slots: seq<ExecutionSlot>) returns (ok: bool)
    ensures ok == ProviderSlotsValid(slots)
  {
    hide ValidSHA256Digest, ProviderSlotsValid;
    ProviderScanIsExact(slots);
    var seenOrdinal: set<uint16>, seenEntry: set<string>, seenVersion: set<string> := {}, {}, {};
    for index := 0 to |slots|
      invariant forall i | 0 <= i < index :: ProviderSlotFollows(slots, i)
      invariant seenOrdinal == set i | 0 <= i < index :: slots[i].ordinal
      invariant seenEntry == set i | 0 <= i < index :: slots[i].entryID
      invariant seenVersion == set i | 0 <= i < index :: slots[i].participantVersionID
    {
      var slot := slots[index];
      if slot.ordinal != ToUint16(index) || slot.entryID == "" || slot.participantID == ""
         || slot.participantVersionID == "" || !ValidSHA256Digest(slot.artifactDigest)
         || slot.ordinal in seenOrdinal || slot.entryID in seenEntry || slot.participantVersionID in seenVersion {
        assert !ProviderSlotFollows(slots, index);
        return false;
      }
      seenOrdinal := seenOrdinal + {slot.ordinal};
      seenEntry := seenEntry + {slot.entryID};
      seenVersion := seenVersion + {slot.participantVersionID};
    }
    return true;
  }

  lemma {:induction false} AllParticipantsPrefix(slots: seq<ScheduledSlot>, k: nat)
    requires k <= |slots|
    ensures AllParticipants(slots[..k]) <= AllParticipants(slots)
  {
    if k == |slots| {
      assert slots[..k] == slots;
    } else {
      assert slots[..|slots| - 1][..k] == slots[..k];
      AllParticipantsPrefix(slots[..|slots| - 1], k);
    }
  }

  lemma PrefixKeepsDistinct(s: seq<string>, t: seq<string>)
    requires s <= t && Distinct(t) && "" !in t
    ensures Distinct(s) && "" !in s
  {
    assert forall i | 0 <= i < |s| :: s[i] == t[i];
  }

  /** The inner loop: one slot's participants against everyone seen so far. */
  method ClaimParticipants(earlier: seq<string>, seen: set<string>, participants: seq<string>)
    returns (ok: bool, seen': set<string>)
    requires Distinct(earlier) && "" !in earlier && seen == Elements(earlier)
    ensures ok == (Distinct(earlier + participants) && "" !in earlier + participants)
    ensures ok ==> seen' == Elements(earlier + participants)
  {
    seen' := seen;
    assert earlier + participants[..0] == earlier;
    for index := 0 to |participants|
      invariant Distinct(earlier + participants[..index]) && "" !in earlier + participants[..index]
      invariant seen' == Elements(earlier + participants[..index])
    {
      var participant := participants[index];
      var before, after := earlier + participants[..index], earlier + participants[..index + 1];
      assert after == before + [participant];
      DistinctAppend(before, participant);
      if participant == "" || participant in seen' {
        assert after <= earlier + participants;
        if Distinct(earlier + participants) && "" !in earlier + participants {
          PrefixKeepsDistinct(after, earlier + participants);
          assert false;
        }
        return false, seen';
      }
      seen' := seen' + {participant};
    }
    assert participants[..|participants|] == participants;
    return true, seen';
  }

  predicate ParticipantsClaimed(slots: seq<ScheduledSlot>)
  {
    Distinct(AllParticipants(slots)) && "" !in AllParticipants(slots)
  }

  lemma ParticipantsClaimedPrefix(slots: seq<ScheduledSlot>, k: nat)
    requires k <= |slots| && ParticipantsClaimed(slots)
    ensures ParticipantsClaimed(slots[..k])
  {
    AllParticipantsPrefix(slots, k);
    PrefixKeepsDistinct(AllParticipants(slots[..k]), AllParticipants(slots));
  }

  /** What the scan checks about slot `i` apart from its participants' identities. */
  predicate ScheduledSlotFollows(slots: seq<ScheduledSlot>, i: nat)
    requires i < |slots|
  {
    && slots[i].ordinal == ToUint16(i) && ScheduledSlotShape(slots[i])
    && forall j | 0 <= j < i :: slots[j].entryID != slots[i].entryID
  }

  lemma ScheduledScanIsExact(slots: seq<ScheduledSlot>)
    ensures (forall i | 0 <= i < |slots| :: ScheduledSlotFollows(slots, i)) && ParticipantsClaimed(slots)
       <==> ScheduledSlotsValid(slots)
  {
    hide ScheduledSlotShape, AllParticipants;
    var entries := ScheduledEntries(slots);
    if forall i | 0 <= i < |slots| :: ScheduledSlotFollows(slots, i) {
      forall i, j | 0 <= i < j < |slots| ensures entries[i] != entries[j] {
        assert ScheduledSlotFollows(slots, j);
      }
      forall i | 0 <= i < |slots| ensures slots[i].ordinal == ToUint16(i) && ScheduledSlotShape(slots[i]) {
        assert ScheduledSlotFollows(slots, i);
      }
    }
    if ScheduledSlotsValid(slots) {
      forall i | 0 <= i < |slots| ensures ScheduledSlotFollows(slots, i) {
        forall j | 0 <= j < i ensures slots[j].entryID != slots[i].entryID {
          assert entries[j] != entries[i];
        }
      }
    }
  }

  method ValidateScheduledSlots(slots: seq<ScheduledSlot>) returns (ok: bool)
    ensures ok == ScheduledSlotsValid(slots)
  {
    hide ScheduledSlotsValid;
    ScheduledScanIsExact(slots);
    var seenEntry: set<string>, seenParticipant: set<string> := {}, {};
    for index := 0 to |slots|
      invariant forall i | 0 <= i < index :: ScheduledSlotFollows(slots, i)
      invariant seenEntry == set i | 0 <= i < index :: slots[i].entryID
      invariant ParticipantsClaimed(slots[..index])
      invariant seenParticipant == Elements(AllParticipants(slots[..index]))
    {
      var slot := slots[index];
      if slot.ordinal != ToUint16(index) || slot.entryID == "" || |slot.participants| == 0
         || slot.entryID in seenEntry {
        assert !ScheduledSlotFollows(slots, index);
        return false;
      }
      seenEntry := seenEntry + {slot.entryID};
      if |slot.displayName| > MAX_DISPLAY_NAME_BYTES || !ValidUTF8(slot.displayName) {
        assert !ScheduledSlotFollows(slots, index);
        return false;
      }
      assert slots[..index + 1][..index] == slots[..index];
      var claimed, seen' := ClaimParticipants(AllParticipants(slots[..index]), seenParticipant, slot.participants);
      if !claimed {
        if ParticipantsClaimed(slots) {
          ParticipantsClaimedPrefix(slots, index + 1);
          assert false;
        }
        return false;
      }
      seenParticipant := seen';
    }
    assert slots[..|slots|] == slots;
    return true;
  }

  method ValidateExecutionProfile(profile: ExecutionProfile) returns (ok: bool)
    ensures ok == ValidExecutionProfile(profile)
  {
    match profile.kind {
      case ProviderExecutedKind =>
        if profile.providerExecuted.None? || profile.participantScheduled.Some? {
          return false;
        }
        var value := profile.providerExecuted.value;
        if value.configuration.version == "" || |value.slots| == 0
           || (value.deadline != ZERO_TIME && value.notBefore != ZERO_TIME && value.deadline < value.notBefore) {
          return false;
        }
        ok := ValidateProviderSlots(value.slots);
      case ParticipantScheduledKind =>
        if profile.participantScheduled.None? || profile.providerExecuted.Some?
           || profile.participantScheduled.value.startsAt == ZERO_TIME
           || |profile.participantScheduled.value.slots| == 0 {
          return false;
        }
        ok := ValidateScheduledSlots(profile.participantScheduled.value.slots);
      case UnknownProfileKind(_) =>
        return false;
    }
  }

  // ----- requests and receipts -----

  predicate ValidExecutionRequest(lib: Library, value: ExecutionRequest)
  {
    && value.id != "" && value.providerID != "" && value.adapterID != "" && value.competitionID != ""
    && value.contestID != "" && value.commandID != "" && value.gameID != "" && value.rulesetVersion != ""
    && value.callbackResource != "" && ValidSHA256Digest(value.typedPayloadDigest)
    && (forall i | 0 <= i < |value.requestedPublicArtifacts| :: value.requestedPublicArtifacts[i] == TERMINAL_REPLAY)
    && Distinct(value.requestedPublicArtifacts)
    && ValidExecutionProfile(value.profile)
    && SourceOperations.DigestJSON(lib, EXECUTION_REQUEST_DOMAIN,
                                   ExecutionRequestJson(value.(typedPayloadDigest := "")))
       == Some(value.typedPayloadDigest)
  }

  predicate ValidExecutionReceiptForRequest(lib: Library, receipt: ExecutionReceipt, request: ExecutionRequest)
  {
    && ValidExecutionRequest(lib, request)
    && receipt.requestID == request.id && receipt.commandID == request.commandID
    && receipt.providerID == request.providerID && receipt.adapterID == request.adapterID
    && receipt.providerInstanceID != ""
    && (forall i | 0 <= i < |receipt.safeReferences| :: ValidSafeReference(receipt.safeReferences[i]))
    && Distinct(receipt.safeReferences)
  }

  // ----- events -----

  predicate ValidTerminalReplay(value: TerminalReplay)
  {
    match value.state
    case ReplayAvailable => ValidReplayReference(value.reference)
    case ReplayProcessing => value.reference == ""
    case ReplayUnavailable => value.reference == ""
    case UnknownReplayState(_) => false
  }

  predicate ValidCompletionEvidence(value: CompletionEvidence, placementCount: nat)
  {
    && (match value.profileKind
        case ProviderExecutedKind =>
          && value.providerExecuted.Some? && value.participantScheduled.None?
          && var p := value.providerExecuted.value;
          && |p.participantArtifactDigests| == placementCount
          && ValidSHA256Digest(p.providerConfigurationDigest) && ValidSHA256Digest(p.runtimeDigest)
          && ValidSHA256Digest(p.rulesDigest) && ValidSHA256Digest(p.limitProfileDigest)
          && ValidSHA256Digest(p.seedDigest) && ValidSHA256Digest(p.eventLogDigest)
          && ValidSHA256Digest(p.executionPayloadDigest)
          && forall i | 0 <= i < |p.participantArtifactDigests| :: ValidSHA256Digest(p.participantArtifactDigests[i])
        case ParticipantScheduledKind =>
          && value.providerExecuted.None? && value.participantScheduled.Some?
          && var p := value.participantScheduled.value;
          && (p.terminalStateDigest == "" || ValidSHA256Digest(p.terminalStateDigest))
          && (p.eventLogDigest == "" || ValidSHA256Digest(p.eventLogDigest))
        case UnknownProfileKind(_) => false)
    && ValidTerminalReplay(value.replay)
  }

  predicate ValidFailureEvidence(value: Option<FailureEvidence>)
  {
    match value
    case None => true
    case Some(e) =>
      && (e.runtimeDigest != "" || e.eventLogDigest != "" || e.executionPayloadDigest != "" || e.replay.Some?)
      && (e.runtimeDigest == "" || ValidSHA256Digest(e.runtimeDigest))
      && (e.eventLogDigest == "" || ValidSHA256Digest(e.eventLogDigest))
      && (e.executionPayloadDigest == "" || ValidSHA256Digest(e.executionPayloadDigest))
      && (e.replay.Some? ==> ValidTerminalReplay(e.replay.value))
  }

  predicate EventBodyValid(value: ExecutionEvent)
  {
    match value.kind
    case Started => value.result.None? && value.failure.None?
    case Completed =>
      && value.result.Some? && value.failure.None? && value.result.value.placements != []
      && ValidCompletionEvidence(value.result.value.evidence, |value.result.value.placements|)
      && ValidPlacements(value.result.value.placements)
    case Failed | Cancelled =>
      && value.result.None? && value.failure.Some? && ValidCode(value.failure.value.code)
      && (value.failure.value.adjudicationCode == "" || ValidCode(value.failure.value.adjudicationCode))
      && ValidFailureEvidence(value.failure.value.evidence)
    case UnknownEventKind(_) => false
  }

  predicate ValidExecutionEvent(lib: Library, value: ExecutionEvent)
  {
    && value.id != "" && value.competitionID != "" && value.contestID != "" && value.requestID != ""
    && value.providerID != "" && value.adapterID != "" && value.providerInstanceID != "" && value.commandID != ""
    && value.occurredAt != ZERO_TIME && ValidSHA256Digest(value.typedPayloadDigest)
    && EventBodyValid(value)
    && SourceOperations.DigestJSON(lib, EXECUTION_EVENT_DOMAIN, ExecutionEventJson(value.(typedPayloadDigest := "")))
       == Some(value.typedPayloadDigest)
  }

  // ----- binding an event to the frozen request -----

  function RequestEntries(profile: ExecutionProfile): seq<string>
    requires profile.kind.ProviderExecutedKind? ==> profile.providerExecuted.Some?
    requires profile.kind.ParticipantScheduledKind? ==> profile.participantScheduled.Some?
  {
    match profile.kind
    case ProviderExecutedKind => ProviderEntries(profile.providerExecuted.value.slots)
    case ParticipantScheduledKind => ScheduledEntries(profile.participantScheduled.value.slots)
    case UnknownProfileKind(_) => []
  }

  function SlotArtifacts(slots: seq<ExecutionSlot>): seq<string>
  {
    seq(|slots|, i requires 0 <= i < |slots| => slots[i].artifactDigest)
  }

  predicate EvidenceBinds(lib: Library, evidence: CompletionEvidence, profile: ExecutionProfile)
    requires profile.kind.ProviderExecutedKind? ==> profile.providerExecuted.Some?
  {
    if profile.kind.ProviderExecutedKind? then
      var p := profile.providerExecuted.value;
      && evidence.profileKind == ProviderExecutedKind && evidence.providerExecuted.Some?
      && evidence.participantScheduled.None?
      && evidence.providerExecuted.value.providerConfigurationDigest
         == DigestOf(lib.sha256, PROVIDER_CONFIGURATION_DOMAIN, [p.configuration.version, p.configuration.data])
      && evidence.providerExecuted.value.participantArtifactDigests == SlotArtifacts(p.slots)
    else
      && evidence.profileKind == ParticipantScheduledKind && evidence.providerExecuted.None?
      && evidence.participantScheduled.Some?
  }

  predicate PlacementsBind(placements: seq<Placement>, entries: seq<string>)
  {
    && |placements| == |entries|
    && forall i | 0 <= i < |placements| ::
         placements[i].slotOrdinal < |entries| && placements[i].entryID == entries[placements[i].slotOrdinal]
  }

  predicate EventIdentityBinds(event: ExecutionEvent, request: ExecutionRequest, receipt: ExecutionReceipt)
  {
    && event.competitionID == request.competitionID && event.contestID == request.contestID
    && event.requestID == request.id && event.providerID == request.providerID
    && event.adapterID == request.adapterID && event.providerInstanceID == receipt.providerInstanceID
  }

  predicate ValidExecutionEventForExecution(lib: Library, event: ExecutionEvent, request: ExecutionRequest,
                                            receipt: ExecutionReceipt)
  {
    && ValidExecutionEvent(lib, event) && ValidExecutionReceiptForRequest(lib, receipt, request)
    && EventIdentityBinds(event, request, receipt)
    && (event.kind == Completed ==>
          && PlacementsBind(event.result.value.placements, RequestEntries(request.profile))
          && EvidenceBinds(lib, event.result.value.evidence, request.profile))
  }

  /** The completed-event part, after the event, the receipt and the identities were accepted. */
  method BindResult(lib: Library, result: ExecutionResult, profile: ExecutionProfile) returns (ok: bool)
    requires ValidExecutionProfile(profile)
    ensures ok == (PlacementsBind(result.placements, RequestEntries(profile))
                   && EvidenceBinds(lib, result.evidence, profile))
  {
    hide ProviderProfileValid, ScheduledSlotsValid, DigestOf;
    var entries: seq<string>, artifactDigests: Option<seq<string>> := [], None;
    match profile.kind {
      case ProviderExecutedKind =>
        var slots := profile.providerExecuted.value.slots;
        var artifacts: seq<string> := [];
        for index := 0 to |slots|
          invariant entries == ProviderEntries(slots)[..index] && artifacts == SlotArtifacts(slots)[..index]
        {
          entries := entries + [slots[index].entryID];
          artifacts := artifacts + [slots[index].artifactDigest];
        }
        artifactDigests := Some(artifacts);
      case ParticipantScheduledKind =>
        var slots := profile.participantScheduled.value.slots;
        for index := 0 to |slots|
          invariant entries == ScheduledEntries(slots)[..index]
        {
          entries := entries + [slots[index].entryID];
        }
    }
    assert entries == RequestEntries(profile);
    if |result.placements| != |entries| {
      return false;
    }
    for index := 0 to |result.placements|
      invariant forall i | 0 <= i < index ::
                  && result.placements[i].slotOrdinal < |entries|
                  && result.placements[i].entryID == entries[result.placements[i].slotOrdinal]
    {
      var placement := result.placements[index];
      if placement.slotOrdinal >= |entries| || placement.entryID != entries[placement.slotOrdinal] {
        return false;
      }
    }
    var evidence := result.evidence;
    if artifactDigests.None? {
      return evidence.profileKind == ParticipantScheduledKind && evidence.providerExecuted.None?
             && evidence.participantScheduled.Some?;
    }
    if evidence.profileKind != ProviderExecutedKind || evidence.providerExecuted.None?
       || evidence.participantScheduled.Some? {
      return false;
    }
    var configuration := profile.providerExecuted.value.configuration;
    var digest := DigestParts(lib.sha256, PROVIDER_CONFIGURATION_DOMAIN, [configuration.version, configuration.data]);
    if evidence.providerExecuted.value.providerConfigurationDigest != digest {
      return false;
    }
    var actual, wanted := evidence.providerExecuted.value.participantArtifactDigests, artifactDigests.value;
    if |actual| != |wanted| {
      return false;
    }
    for index := 0 to |wanted|
      invariant forall i | 0 <= i < index :: actual[i] == wanted[i]
    {
      if actual[index] != wanted[index] {
        return false;
      }
    }
    return true;
  }

  lemma RequestEntriesDistinct(profile: ExecutionProfile)
    requires ValidExecutionProfile(profile)
    ensures Distinct(RequestEntries(profile)) && RequestEntries(profile) != []
  {
  }

  predicate PlacesSlot(ps: seq<Placement>, slot: int, entryID: string)
  {
    exists i :: 0 <= i < |ps| && ps[i].slotOrdinal == slot && ps[i].entryID == entryID
  }

  /** Every frozen slot is placed, with its own entry. */
  predicate PlacesEverySlot(ps: seq<Placement>, entries: seq<string>)
  {
    forall k | 0 <= k < |entries| :: PlacesSlot(ps, k, entries[k])
  }

  lemma BoundPlacementsCoverSlots(ps: seq<Placement>, entries: seq<string>)
    requires ValidPlacements(ps) && PlacementsBind(ps, entries)
    ensures PlacesEverySlot(ps, entries)
  {
    forall k | 0 <= k < |entries| ensures PlacesSlot(ps, k, entries[k]) {
      var i := SlotsAreAPermutation(ps, k);
      assert ps[i].entryID == entries[ps[i].slotOrdinal];
    }
  }

  lemma BoundEntriesAgree(ps: seq<Placement>, entries: seq<string>)
    requires ValidPlacements(ps) && PlacementsBind(ps, entries) && Distinct(entries)
    ensures multiset(EntryIDs(ps)) == multiset(entries)
  {
    forall x ensures x in Elements(EntryIDs(ps)) <==> x in Elements(entries) {
      if x in Elements(EntryIDs(ps)) {
        var i :| 0 <= i < |ps| && EntryIDs(ps)[i] == x;
        assert entries[ps[i].slotOrdinal] == x;
      }
      if x in Elements(entries) {
        var k :| 0 <= k < |entries| && entries[k] == x;
        var i := SlotsAreAPermutation(ps, k);
        assert EntryIDs(ps)[i] == x;
      }
    }
    DistinctPermutation(EntryIDs(ps), entries);
  }

  /** An accepted result is a permutation of the frozen slots: every slot is placed at exactly one
      position with its own entry, the entries agree as multisets, and there are at most 65536. */
  lemma CompletedEventIsAPermutation(lib: Library, event: ExecutionEvent, request: ExecutionRequest,
                                     receipt: ExecutionReceipt)
    requires ValidExecutionEventForExecution(lib, event, request, receipt) && event.kind == Completed
    ensures var ps, entries := event.result.value.placements, RequestEntries(request.profile);
            && 0 < |ps| == |entries| <= TWO16
            && PlacesEverySlot(ps, entries) && Distinct(Slots(ps))
            && multiset(EntryIDs(ps)) == multiset(entries)
  {
    hide DigestOf, ValidSHA256Digest, ProviderProfileValid, ScheduledSlotsValid, ValidCompletionEvidence;
    var ps, entries := event.result.value.placements, RequestEntries(request.profile);
    assert ValidPlacements(ps);
    SlotsBoundLength(ps);
    RequestEntriesDistinct(request.profile);
    BoundPlacementsCoverSlots(ps, entries);
    BoundEntriesAgree(ps, entries);
  }

  /** For a provider-executed contest the recorded artifacts are the request's, slot by slot. */
  lemma CompletedArtifactsInSlotOrder(lib: Library, event: ExecutionEvent, request: ExecutionRequest,
                                      receipt: ExecutionReceipt, i: nat)
    requires ValidExecutionEventForExecution(lib, event, request, receipt) && event.kind == Completed
    requires request.profile.kind == ProviderExecutedKind && i < |event.result.value.placements|
    ensures var p, slots := event.result.value.placements[i], request.profile.providerExecuted.value.slots;
            var evidence := event.result.value.evidence.providerExecuted;
            && evidence.Some? && |evidence.value.participantArtifactDigests| == |slots|
            && p.slotOrdinal < |slots| && slots[p.slotOrdinal].ordinal == p.slotOrdinal
            && slots[p.slotOrdinal].entryID == p.entryID
            && evidence.value.participantArtifactDigests[p.slotOrdinal] == slots[p.slotOrdinal].artifactDigest
  {
    hide DigestOf, ValidSHA256Digest, ValidCompletionEvidence, ValidPlacements;
    var p, slots := event.result.value.placements[i], request.profile.providerExecuted.value.slots;
    assert ProviderSlotsValid(slots);
    assert SlotArtifacts(slots)[p.slotOrdinal] == slots[p.slotOrdinal].artifactDigest;
  }

  // ----- lifecycle -----

  datatype ExecutionState = AcceptedState | StartedState | CompletedState | FailedState | CancelledState | NoState

  /** The transition table: a state without a row permits nothing. */
  const TRANSITIONS: map<ExecutionState, set<EventKind>> :=
    map[AcceptedState := {Started, Failed, Cancelled}, StartedState := {Completed, Failed, Cancelled}]

  predicate ValidLifecycleTransition(previous: ExecutionState, next: EventKind)
  {
    previous in TRANSITIONS && next in TRANSITIONS[previous]
  }

  function StateForEvent(kind: EventKind): ExecutionState
  {
    match kind
    case Started => StartedState
    case Completed => CompletedState
    case Failed => FailedState
    case Cancelled => CancelledState
    case UnknownEventKind(_) => NoState
  }
}
