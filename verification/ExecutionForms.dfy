/** What makes an execution request, its receipt and an event for it acceptable, field by field. */
module ExecutionForms {
  import opened Primitives
  import opened ContractTypes
  import opened DigestFraming
  import opened JsonText
  import opened Combinatorics
  import opened Placements
  import opened Execution
  import opened SourceOperations
  import opened TextForms

  // ----- profiles -----

  /** Every slot of a provider-executed profile: its position, its names and its artifact. */
  predicate ProviderSlotsFit(slots: seq<ExecutionSlot>)
  {
    && 1 <= |slots| <= 65536
    && (forall i | 0 <= i < |slots| ::
          && slots[i].ordinal == i && slots[i].entryID != "" && slots[i].participantID != ""
          && slots[i].participantVersionID != "" && ValidSHA256Digest(slots[i].artifactDigest))
    && forall i, j | 0 <= i < j < |slots| ::
         slots[i].entryID != slots[j].entryID && slots[i].participantVersionID != slots[j].participantVersionID
  }

  /** No two positions, in one slot or in two, name the same participant. */
  predicate ParticipantsFit(slots: seq<ScheduledSlot>)
  {
    && (forall i, a | 0 <= i < |slots| && 0 <= a < |slots[i].participants| :: slots[i].participants[a] != "")
    && (forall i, a, b | 0 <= i < |slots| && 0 <= a < b < |slots[i].participants| ::
          slots[i].participants[a] != slots[i].participants[b])
    && forall i, j, a, b |
         0 <= i < j < |slots| && 0 <= a < |slots[i].participants| && 0 <= b < |slots[j].participants| ::
         slots[i].participants[a] != slots[j].participants[b]
  }

  predicate ScheduledSlotsFit(slots: seq<ScheduledSlot>)
  {
    && 1 <= |slots|
    && (forall i | 0 <= i < |slots| ::
          && slots[i].ordinal == i % 65536 && slots[i].entryID != "" && 1 <= |slots[i].participants|
          && |slots[i].displayName| <= 256 && ValidUTF8(slots[i].displayName))
    && (forall i, j | 0 <= i < j < |slots| :: slots[i].entryID != slots[j].entryID)
    && ParticipantsFit(slots)
  }

  predicate ProfileFits(profile: ExecutionProfile)
  {
    || (&& profile.kind == ProviderExecutedKind && profile.providerExecuted.Some? && profile.participantScheduled.None?
        && var p := profile.providerExecuted.value;
        && p.configuration.version != "" && ProviderSlotsFit(p.slots)
        && (p.deadline != 0 && p.notBefore != 0 ==> p.notBefore <= p.deadline))
    || (&& profile.kind == ParticipantScheduledKind && profile.participantScheduled.Some?
        && profile.providerExecuted.None? && profile.participantScheduled.value.startsAt != 0
        && ScheduledSlotsFit(profile.participantScheduled.value.slots))
  }

  lemma ProviderSlotsExactly(slots: seq<ExecutionSlot>)
    ensures slots != [] && ProviderSlotsValid(slots) <==> ProviderSlotsFit(slots)
  {
    hide ValidSHA256Digest;
    assert forall i | 0 <= i < |slots| ::
        ProviderEntries(slots)[i] == slots[i].entryID && ProviderVersions(slots)[i] == slots[i].participantVersionID;
  }

  lemma DistinctConcat(a: seq<string>, b: seq<string>)
    ensures Distinct(a + b) <==> Distinct(a) && Distinct(b) && forall x | x in a :: x !in b
  {
    var whole := a + b;
    assert forall i | 0 <= i < |a| :: whole[i] == a[i];
    assert forall j | 0 <= j < |b| :: whole[|a| + j] == b[j];
    if Distinct(a) && Distinct(b) && forall x | x in a :: x !in b {
      forall i, j | 0 <= i < j < |whole| ensures whole[i] != whole[j] {
        if i < |a| <= j {
          assert a[i] in a && b[j - |a|] in b;
        }
      }
    }
  }

  lemma {:induction false} ParticipantListed(slots: seq<ScheduledSlot>, p: string)
    ensures p in AllParticipants(slots) <==> exists i :: 0 <= i < |slots| && p in slots[i].participants
  {
    if slots == [] {
    } else {
      var n := |slots| - 1;
      ParticipantListed(slots[..n], p);
      if i :| 0 <= i < n && p in slots[..n][i].participants {
        assert p in slots[i].participants;
      }
      if i :| 0 <= i < |slots| && p in slots[i].participants {
        assert i < n ==> p in slots[..n][i].participants;
      }
    }
  }

  lemma ParticipantsFitGrows(slots: seq<ScheduledSlot>, n: nat)
    requires |slots| == n + 1
    ensures ParticipantsFit(slots)
       <==> && ParticipantsFit(slots[..n]) && Distinct(slots[n].participants) && "" !in slots[n].participants
            && forall i, p | 0 <= i < n && p in slots[i].participants :: p !in slots[n].participants
  {
    var init, last := slots[..n], slots[n].participants;
    assert forall i | 0 <= i < n :: init[i] == slots[i];
    if ParticipantsFit(slots) {
      forall i, p | 0 <= i < n && p in slots[i].participants ensures p !in last {
        var a :| 0 <= a < |slots[i].participants| && slots[i].participants[a] == p;
      }
    }
    if ParticipantsFit(init) && Distinct(last) && "" !in last
       && forall i, p | 0 <= i < n && p in slots[i].participants :: p !in last {
      forall i, a | 0 <= i < |slots| && 0 <= a < |slots[i].participants| ensures slots[i].participants[a] != "" {
        if i < n {
          assert init[i].participants[a] != "";
        }
      }
      forall i, a, b | 0 <= i < |slots| && 0 <= a < b < |slots[i].participants|
        ensures slots[i].participants[a] != slots[i].participants[b]
      {
        if i < n {
          assert init[i].participants[a] != init[i].participants[b];
        }
      }
      forall i, j, a, b | 0 <= i < j < |slots| && 0 <= a < |slots[i].participants| && 0 <= b < |slots[j].participants|
        ensures slots[i].participants[a] != slots[j].participants[b]
      {
        if j < n {
          assert init[i].participants[a] != init[j].participants[b];
        } else {
          var p := slots[i].participants[a];
          assert p in slots[i].participants && p !in last && last[b] in last;
        }
      }
    }
  }

  lemma {:induction false} ParticipantsExactly(slots: seq<ScheduledSlot>)
    ensures ParticipantsClaimed(slots) <==> ParticipantsFit(slots)
  {
    if slots == [] {
    } else {
      hide ParticipantsFit, Distinct;
      var n := |slots| - 1;
      var init, last := slots[..n], slots[n].participants;
      var before := AllParticipants(init);
      ParticipantsExactly(init);
      DistinctConcat(before, last);
      ParticipantsFitGrows(slots, n);
      forall p ensures p in before <==> exists i :: 0 <= i < n && p in slots[i].participants {
        ParticipantListed(init, p);
        assert forall i | 0 <= i < n :: init[i] == slots[i];
      }
    }
  }

  lemma ScheduledSlotsExactly(slots: seq<ScheduledSlot>)
    ensures slots != [] && ScheduledSlotsValid(slots) <==> ScheduledSlotsFit(slots)
  {
    hide ParticipantsFit, AllParticipants, ValidUTF8;
    ParticipantsExactly(slots);
    assert forall i | 0 <= i < |slots| :: ScheduledEntries(slots)[i] == slots[i].entryID;
  }

  lemma ProfileExactly(profile: ExecutionProfile)
    ensures ValidExecutionProfile(profile) <==> ProfileFits(profile)
  {
    hide ProviderSlotsFit, ScheduledSlotsFit, ProviderSlotsValid, ScheduledSlotsValid;
    if profile.providerExecuted.Some? {
      ProviderSlotsExactly(profile.providerExecuted.value.slots);
    }
    if profile.participantScheduled.Some? {
      ScheduledSlotsExactly(profile.participantScheduled.value.slots);
    }
  }

  // ----- requests and receipts -----

  predicate RequestFits(lib: Library, r: ExecutionRequest)
  {
    && r.id != "" && r.providerID != "" && r.adapterID != "" && r.competitionID != "" && r.contestID != ""
    && r.commandID != "" && r.gameID != "" && r.rulesetVersion != "" && r.callbackResource != ""
    && (r.requestedPublicArtifacts == [] || r.requestedPublicArtifacts == ["terminal-replay"])
    && ProfileFits(r.profile)
    && SealedBy(lib, "competios.execution-request-payload.v1",
                ExecutionRequestJson(r.(typedPayloadDigest := "")), r.typedPayloadDigest)
  }

  lemma OneArtifactAtMost(artifacts: seq<string>)
    ensures (forall i | 0 <= i < |artifacts| :: artifacts[i] == TERMINAL_REPLAY) && Distinct(artifacts)
       <==> artifacts == [] || artifacts == ["terminal-replay"]
  {
    if Distinct(artifacts) && |artifacts| > 1 {
      assert artifacts[0] != artifacts[1];
    }
  }

  /** A request names everything, asks for the terminal replay or for nothing, fits a profile and is sealed. */
  lemma RequestExactly(lib: Library, r: ExecutionRequest)
    ensures ValidExecutionRequest(lib, r) <==> RequestFits(lib, r)
  {
    hide ValidSHA256Digest, ValidExecutionProfile, ProfileFits, Distinct, SealedBy, DigestJSON;
    OneArtifactAtMost(r.requestedPublicArtifacts);
    ProfileExactly(r.profile);
    SealedExactly(lib, EXECUTION_REQUEST_DOMAIN, ExecutionRequestJson(r.(typedPayloadDigest := "")),
                  r.typedPayloadDigest);
  }

  ghost predicate ReceiptFits(receipt: ExecutionReceipt, r: ExecutionRequest)
  {
    && receipt.requestID == r.id && receipt.commandID == r.commandID && receipt.providerID == r.providerID
    && receipt.adapterID == r.adapterID && receipt.providerInstanceID != ""
    && (forall i | 0 <= i < |receipt.safeReferences| :: IsSafeReference(receipt.safeReferences[i]))
    && forall i, j | 0 <= i < j < |receipt.safeReferences| :: receipt.safeReferences[i] != receipt.safeReferences[j]
  }

  lemma ReceiptExactly(lib: Library, receipt: ExecutionReceipt, r: ExecutionRequest)
    ensures ValidExecutionReceiptForRequest(lib, receipt, r) <==> RequestFits(lib, r) && ReceiptFits(receipt, r)
  {
    hide ValidExecutionRequest, RequestFits, ValidSafeReference, IsSafeReference;
    RequestExactly(lib, r);
    forall i | 0 <= i < |receipt.safeReferences|
      ensures ValidSafeReference(receipt.safeReferences[i]) <==> IsSafeReference(receipt.safeReferences[i])
    {
      SafeReferenceForm(receipt.safeReferences[i]);
    }
  }

  // ----- events -----

  ghost predicate ReplayFits(replay: TerminalReplay)
  {
    || (replay.state == ReplayAvailable && IsReplayReference(replay.reference))
    || (replay.state in {ReplayProcessing, ReplayUnavailable} && replay.reference == "")
  }

  predicate AbsentOrDigest(digest: string) { digest == "" || ValidSHA256Digest(digest) }

  /** A failure: a code, perhaps an adjudication code, and perhaps evidence that is not empty. */
  ghost predicate FailureFits(f: ExecutionFailure)
  {
    && ValidCode(f.code) && (f.adjudicationCode == "" || ValidCode(f.adjudicationCode))
    && match f.evidence
       case None => true
       case Some(e) =>
         && AbsentOrDigest(e.runtimeDigest) && AbsentOrDigest(e.eventLogDigest)
         && AbsentOrDigest(e.executionPayloadDigest) && (e.replay.Some? ==> ReplayFits(e.replay.value))
         && e != FailureEvidence("", "", "", None)
  }

  /** Recorded provenance: the request's configuration and artifacts, slot by slot, and six digests of the run. */
  predicate ProvenanceFits(lib: Library, p: ProviderExecutedProfile, e: RecordedProvenance)
  {
    && |e.participantArtifactDigests| == |p.slots|
    && (forall i | 0 <= i < |p.slots| :: e.participantArtifactDigests[i] == p.slots[i].artifactDigest)
    && e.providerConfigurationDigest
       == DigestText(lib.sha256(
            Frames(["competios.provider-configuration.v1", p.configuration.version, p.configuration.data])))
    && ValidSHA256Digest(e.runtimeDigest) && ValidSHA256Digest(e.rulesDigest)
    && ValidSHA256Digest(e.limitProfileDigest) && ValidSHA256Digest(e.seedDigest)
    && ValidSHA256Digest(e.eventLogDigest) && ValidSHA256Digest(e.executionPayloadDigest)
  }

  /** The evidence of a completed event is of the request's kind, and records what the request asked for. */
  ghost predicate EvidenceFits(lib: Library, profile: ExecutionProfile, e: CompletionEvidence)
  {
    && ReplayFits(e.replay) && e.profileKind == profile.kind
    && match profile.kind
       case ProviderExecutedKind =>
         && profile.providerExecuted.Some? && e.providerExecuted.Some? && e.participantScheduled.None?
         && ProvenanceFits(lib, profile.providerExecuted.value, e.providerExecuted.value)
       case ParticipantScheduledKind =>
         && e.providerExecuted.None? && e.participantScheduled.Some?
         && AbsentOrDigest(e.participantScheduled.value.terminalStateDigest)
         && AbsentOrDigest(e.participantScheduled.value.eventLogDigest)
       case UnknownProfileKind(_) => false
  }

  /** Every frozen slot has one placement, with its own entry; the placements are ranked and in order. */
  predicate PlacementsFit(ps: seq<Placement>, entries: seq<string>)
  {
    && |ps| == |entries| && (forall i | 0 <= i < |ps| :: Placed(ps, i) && ps[i].entryID == entries[ps[i].slotOrdinal])
    && forall i, j | 0 <= i < j < |ps| :: Precedes(ps[i], ps[j])
  }

  lemma ReplayExactly(replay: TerminalReplay)
    ensures ValidTerminalReplay(replay) <==> ReplayFits(replay)
  {
    hide ValidReplayReference, IsReplayReference;
    ReplayReferenceForm(replay.reference);
  }

  lemma FailureExactly(f: ExecutionFailure)
    ensures ValidCode(f.code) && (f.adjudicationCode == "" || ValidCode(f.adjudicationCode))
            && ValidFailureEvidence(f.evidence)
       <==> FailureFits(f)
  {
    hide ValidCode, ValidSHA256Digest, ValidTerminalReplay, ReplayFits;
    if f.evidence.Some? && f.evidence.value.replay.Some? {
      ReplayExactly(f.evidence.value.replay.value);
    }
  }

  lemma ProvenanceExactly(lib: Library, p: ProviderExecutedProfile, e: RecordedProvenance)
    requires ProviderSlotsFit(p.slots)
    ensures ProvenanceFits(lib, p, e)
       <==> && e.participantArtifactDigests == SlotArtifacts(p.slots)
            && e.providerConfigurationDigest
               == DigestOf(lib.sha256, PROVIDER_CONFIGURATION_DOMAIN, [p.configuration.version, p.configuration.data])
            && ValidSHA256Digest(e.providerConfigurationDigest) && ValidSHA256Digest(e.runtimeDigest)
            && ValidSHA256Digest(e.rulesDigest) && ValidSHA256Digest(e.limitProfileDigest)
            && ValidSHA256Digest(e.seedDigest) && ValidSHA256Digest(e.eventLogDigest)
            && ValidSHA256Digest(e.executionPayloadDigest)
            && forall i | 0 <= i < |e.participantArtifactDigests| ::
                 ValidSHA256Digest(e.participantArtifactDigests[i])
  {
    hide ValidSHA256Digest, Frames;
    var parts := [p.configuration.version, p.configuration.data];
    assert [PROVIDER_CONFIGURATION_DOMAIN] + parts
        == ["competios.provider-configuration.v1", p.configuration.version, p.configuration.data];
    assert ValidSHA256Digest(DigestOf(lib.sha256, PROVIDER_CONFIGURATION_DOMAIN, parts));
  }

  lemma EvidenceExactly(lib: Library, profile: ExecutionProfile, e: CompletionEvidence)
    requires ProfileFits(profile)
    ensures ValidExecutionProfile(profile)
    ensures ValidCompletionEvidence(e, |RequestEntries(profile)|) && EvidenceBinds(lib, e, profile)
       <==> EvidenceFits(lib, profile, e)
  {
    hide ValidSHA256Digest, ReplayFits, ValidTerminalReplay, ProvenanceFits, DigestOf, ProviderSlotsFit,
         ScheduledSlotsFit, ProviderProfileValid, ScheduledSlotsValid;
    ProfileExactly(profile);
    ReplayExactly(e.replay);
    if profile.providerExecuted.Some? && e.providerExecuted.Some? && profile.kind == ProviderExecutedKind {
      ProvenanceExactly(lib, profile.providerExecuted.value, e.providerExecuted.value);
    }
  }

  /** The entries the request froze, slot by slot. */
  function FrozenEntries(profile: ExecutionProfile): seq<string>
    requires ProfileFits(profile)
  {
    if profile.kind == ProviderExecutedKind then
      var slots := profile.providerExecuted.value.slots;
      seq(|slots|, i requires 0 <= i < |slots| => slots[i].entryID)
    else
      var slots := profile.participantScheduled.value.slots;
      seq(|slots|, i requires 0 <= i < |slots| => slots[i].entryID)
  }

  ghost predicate BodyFits(lib: Library, profile: ExecutionProfile, e: ExecutionEvent)
    requires ProfileFits(profile)
  {
    || (e.kind == Started && e.result == None && e.failure == None)
    || (&& e.kind == Completed && e.result.Some? && e.failure == None
        && PlacementsFit(e.result.value.placements, FrozenEntries(profile))
        && EvidenceFits(lib, profile, e.result.value.evidence))
    || (e.kind in {Failed, Cancelled} && e.result == None && e.failure.Some? && FailureFits(e.failure.value))
  }

  /** The event names the request's contest and the receipt's instance, is sealed, and has a body of its kind that
      fits what the request froze. */
  ghost predicate EventFits(lib: Library, e: ExecutionEvent, r: ExecutionRequest, receipt: ExecutionReceipt)
  {
    && RequestFits(lib, r) && ReceiptFits(receipt, r)
    && e.competitionID == r.competitionID && e.contestID == r.contestID && e.requestID == r.id
    && e.providerID == r.providerID && e.adapterID == r.adapterID
    && e.providerInstanceID == receipt.providerInstanceID
    && e.id != "" && e.commandID != "" && e.occurredAt != 0
    && SealedBy(lib, "competios.execution-event-payload.v1", ExecutionEventJson(e.(typedPayloadDigest := "")),
                e.typedPayloadDigest)
    && BodyFits(lib, r.profile, e)
  }

  lemma FrozenEntriesExactly(profile: ExecutionProfile)
    requires ProfileFits(profile)
    ensures ValidExecutionProfile(profile) && FrozenEntries(profile) == RequestEntries(profile) != []
  {
    hide ValidSHA256Digest, ValidUTF8;
    ProfileExactly(profile);
  }

  lemma PlacementsFitExactly(ps: seq<Placement>, entries: seq<string>)
    ensures PlacementsFit(ps, entries) <==> ValidPlacements(ps) && PlacementsBind(ps, entries)
  {
    hide ValidPlacements, Precedes;
    PlacementsExactly(ps);
  }

  lemma BoundLength(ps: seq<Placement>, entries: seq<string>)
    ensures PlacementsBind(ps, entries) ==> |ps| == |entries|
  {
  }

  lemma BodyExactly(lib: Library, profile: ExecutionProfile, e: ExecutionEvent)
    requires ProfileFits(profile)
    ensures ValidExecutionProfile(profile)
    ensures && EventBodyValid(e)
            && (e.kind == Completed ==>
                  && PlacementsBind(e.result.value.placements, RequestEntries(profile))
                  && EvidenceBinds(lib, e.result.value.evidence, profile))
       <==> BodyFits(lib, profile, e)
  {
    hide ValidPlacements, PlacementsFit, PlacementsBind, EvidenceFits, ValidCompletionEvidence, EvidenceBinds,
         FrozenEntries, RequestEntries, ProfileFits, ProviderProfileValid, ScheduledSlotsValid, FailureFits, ValidCode,
         ValidFailureEvidence;
    FrozenEntriesExactly(profile);
    if e.result.Some? {
      PlacementsFitExactly(e.result.value.placements, RequestEntries(profile));
      BoundLength(e.result.value.placements, RequestEntries(profile));
      EvidenceExactly(lib, profile, e.result.value.evidence);
    }
    if e.failure.Some? {
      FailureExactly(e.failure.value);
    }
  }

  /** What makes an event acceptable for a request and its receipt. */
  lemma EventExactly(lib: Library, e: ExecutionEvent, r: ExecutionRequest, receipt: ExecutionReceipt)
    ensures ValidExecutionEventForExecution(lib, e, r, receipt) <==> EventFits(lib, e, r, receipt)
  {
    hide ValidSHA256Digest, ProfileFits, ValidExecutionProfile, BodyFits, EventBodyValid, PlacementsBind, EvidenceBinds,
         RequestEntries, SealedBy, DigestJSON, IsSafeReference, ValidExecutionReceiptForRequest;
    ReceiptExactly(lib, receipt, r);
    SealedExactly(lib, EXECUTION_EVENT_DOMAIN, ExecutionEventJson(e.(typedPayloadDigest := "")), e.typedPayloadDigest);
    if RequestFits(lib, r) {
      BodyExactly(lib, r.profile, e);
    }
  }
}
