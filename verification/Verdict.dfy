/** The status and reason a teardown settles on before it writes anything. */
module Verdict {
  import opened Text
  import opened Wrappers

  datatype Status = Running | Completed | CompletedEmpty | Failed | TimedOut | Aborted | Cancelled

  predicate Terminal(s: Status) { !s.Running? }

  datatype Reason =
    | StartedOk
    | CompletedOk | CompletedGateRejected | CompletedSpawnRefused | CompletedFinalizeError
    | CompletedEmptyNoEvidence
    | FailedException | FailedProviderRetryable | FailedProviderNonretryable
    | FailedMissingArtifact | FailedEscalated | FailedArtifactWrite
    | TimedOutDeadline
    | CancelledSigint | CancelledSigterm | CancelledSystem
  {
    /** The one status a reason code speaks of; an interrupt by the user is what aborted means. */
    function Family(): Status {
      match this
      case StartedOk => Running
      case CompletedOk => Completed
      case CompletedGateRejected => Completed
      case CompletedSpawnRefused => Completed
      case CompletedFinalizeError => Completed
      case CompletedEmptyNoEvidence => CompletedEmpty
      case TimedOutDeadline => TimedOut
      case CancelledSigint => Aborted
      case CancelledSigterm => Cancelled
      case CancelledSystem => Cancelled
      case _ => Failed
    }
  }

  /** An exception as the cascade sees it; only the exact ProviderError class is a bare provider error. */
  datatype Exn =
    | NoException
    | Provider(bare: bool, retryable: bool)
    | Sigterm
    | Other

  datatype Verification = Verification(failed: bool, missing: seq<string>, produced: seq<string>)

  datatype GitEvidence = GitEvidence(checked: bool, ahead: bool, dirty: bool)

  /** A stored message: absent from the store, or a role and the text its content comes down to. */
  datatype Message = Absent | Message(assistant: bool, text: string)

  datatype Linked = Linked(status: Status, messages: seq<Message>)

  /** Everything a teardown reads before its write. */
  datatype Input = Input(
    status: Status, exn: Exn, sigtermLatched: bool,
    engine: bool, linked: Option<Linked>,
    verification: Option<Verification>,
    failedOperations: seq<string>, escalated: seq<string>,
    gateRejected: seq<string>, spawnRefused: seq<string>,
    artifactWriteError: bool, finalizeError: bool,
    git: GitEvidence, messages: seq<Message>)

  /** What the verdict points to. */
  datatype Evidence =
    | NoEvidence | LinkedSession | MissingArtifacts(ids: seq<string>) | Operations(ids: seq<string>)
    | Escalations(ids: seq<string>) | Gates(ids: seq<string>) | Spawns(ids: seq<string>)
    | GitCheck | WriteError | FinalizeStep

  datatype Note =
    | ExceptionClass | LinkedId | VerificationStatus | GateNote | SpawnNote | CompletionNote
    | WriteErrorNote | FinalizeNote

  datatype Outcome = Outcome(status: Status, reason: Reason, evidence: Evidence, notes: set<Note>)

  // ---------- What the cascade is for ----------

  predicate Speaks(m: Message) { m.Message? && m.assistant && !Blank(m.text) }

  predicate HasOutput(messages: seq<Message>) {
    exists i :: 0 <= i < |messages| && Speaks(messages[i])
  }

  /** A failure reported as the exact provider class while an engine session is linked to the run. */
  predicate MaybePhantom(i: Input) {
    i.status.Failed? && i.exn.Provider? && i.exn.bare && i.engine
  }

  predicate Reconciled(i: Input) { MaybePhantom(i) && i.linked.Some? }

  function BaseStatus(i: Input): Status {
    if Reconciled(i) then i.linked.value.status else i.status
  }

  function Transcript(i: Input): seq<Message> {
    if Reconciled(i) && Terminal(i.linked.value.status) then i.messages + i.linked.value.messages
    else i.messages
  }

  predicate ContractFailed(i: Input) { i.verification.Some? && i.verification.value.failed }

  predicate Contradicted(i: Input) {
    ContractFailed(i) || i.failedOperations != [] || i.escalated != []
  }

  /** A ground on which "completed" is believed. */
  predicate Trusted(i: Input) {
    || i.gateRejected != [] || i.spawnRefused != []
    || (i.verification.Some? && i.verification.value.produced != [])
    || !i.git.checked || i.git.ahead || i.git.dirty
    || HasOutput(Transcript(i))
  }

  /** The caller reports completion, or a bare provider error whose linked session completed. */
  predicate Claimed(i: Input) {
    || i.status == Completed
    || (i.status == Failed && i.exn.Provider? && i.exn.bare && i.engine
        && i.linked.Some? && i.linked.value.status == Completed)
  }

  /** What it takes to be recorded as completed: the claim, nothing against it, its output written, and one
      ground to believe it. */
  predicate Earned(i: Input) {
    && Claimed(i)
    && !(i.verification.Some? && i.verification.value.failed)
    && i.failedOperations == [] && i.escalated == [] && !i.artifactWriteError
    && (|| i.gateRejected != [] || i.spawnRefused != []
        || (i.verification.Some? && i.verification.value.produced != [])
        || !i.git.checked || i.git.ahead || i.git.dirty
        || HasOutput(i.messages)
        || (i.status == Failed && HasOutput(i.linked.value.messages)))
  }

  function FinalStatus(i: Input): Status {
    if BaseStatus(i) != Completed then BaseStatus(i)
    else if Contradicted(i) then Failed
    else if !Trusted(i) then CompletedEmpty
    else if i.artifactWriteError then Failed
    else Completed
  }

  function PlainReason(s: Status): Reason {
    match s
    case Running => StartedOk
    case Completed => CompletedOk
    case CompletedEmpty => CompletedEmptyNoEvidence
    case Failed => FailedException
    case TimedOut => TimedOutDeadline
    case Aborted => CancelledSigint
    case Cancelled => CancelledSystem
  }

  /** The reason of the base status, before any evidence is weighed. */
  function BaseReason(i: Input): Reason {
    if Reconciled(i) then PlainReason(i.linked.value.status)
    else if i.status.Cancelled? && (i.exn.Sigterm? || i.sigtermLatched) then CancelledSigterm
    else if i.exn.Provider? && (i.status.Failed? || i.status.Running?) then
      if i.exn.retryable then FailedProviderRetryable else FailedProviderNonretryable
    else if i.status.Running? then FailedException
    else PlainReason(i.status)
  }

  function FinalReason(i: Input): Reason {
    if BaseStatus(i) != Completed then BaseReason(i)
    else match FinalStatus(i)
      case Completed =>
        if i.finalizeError then CompletedFinalizeError
        else if i.spawnRefused != [] then CompletedSpawnRefused
        else if i.gateRejected != [] then CompletedGateRejected
        else CompletedOk
      case Failed =>
        if ContractFailed(i) then FailedMissingArtifact
        else if i.failedOperations != [] then FailedException
        else if i.escalated != [] then FailedEscalated
        else FailedArtifactWrite
      case _ => CompletedEmptyNoEvidence
  }

  function FinalEvidence(i: Input): Evidence {
    if BaseStatus(i) != Completed then if Reconciled(i) then LinkedSession else NoEvidence
    else match FinalReason(i)
      case FailedMissingArtifact =>
        if i.verification.Some? then MissingArtifacts(i.verification.value.missing) else NoEvidence
      case FailedException => Operations(i.failedOperations)
      case FailedEscalated => Escalations(i.escalated)
      case FailedArtifactWrite => WriteError
      case CompletedFinalizeError => FinalizeStep
      case CompletedSpawnRefused => Spawns(i.spawnRefused)
      case CompletedGateRejected => Gates(i.gateRejected)
      case CompletedEmptyNoEvidence => GitCheck
      case _ => if Reconciled(i) then LinkedSession else NoEvidence
  }

  /** The git probe is consulted only when no other ground is at hand. */
  predicate Probed(i: Input) {
    && i.gateRejected == [] && i.spawnRefused == [] && i.git.checked
    && (i.verification.None? || i.verification.value.produced == [])
  }

  function FinalNotes(i: Input): set<Note> {
    var standing := BaseStatus(i) == Completed && !Contradicted(i);
    (if i.exn == NoException then {} else {ExceptionClass})
    + (if MaybePhantom(i) then {LinkedId} else {})
    + (if BaseStatus(i) != Completed && ContractFailed(i) then {VerificationStatus} else {})
    + (if standing && i.gateRejected != [] then {GateNote} else {})
    + (if i.spawnRefused != [] then {SpawnNote} else {})
    + (if standing && Probed(i) then {CompletionNote} else {})
    + (if i.artifactWriteError then {WriteErrorNote} else {})
    + (if i.finalizeError then {FinalizeNote} else {})
  }

  // ---------- The code ----------

  /** The first reading of status and exception; a cancellation uses up the process-wide signal latch. */
  method ResolveRunReason(status: Status, exn: Exn, latched: bool) returns (reason: Reason, latched': bool)
    ensures latched' <==> latched && !status.Cancelled?
    ensures Terminal(status) ==> reason.Family() == status
    ensures status.Cancelled? ==> (reason.CancelledSigterm? <==> exn.Sigterm? || latched)
    ensures status.Failed? || status.Running? ==>
              reason == if exn.Provider? then
                          if exn.retryable then FailedProviderRetryable else FailedProviderNonretryable
                        else FailedException
    ensures !status.Failed? && !status.Running? && !status.Cancelled? ==> reason == PlainReason(status)
  {
    latched' := latched;
    if status == Completed { return CompletedOk, latched'; }
    if status == CompletedEmpty { return CompletedEmptyNoEvidence, latched'; }
    if status == TimedOut { return TimedOutDeadline, latched'; }
    if status == Aborted { return CancelledSigint, latched'; }
    if status == Cancelled {
      latched' := false;
      return if exn.Sigterm? || latched then CancelledSigterm else CancelledSystem, latched';
    }
    if exn.Provider? {
      return if exn.retryable then FailedProviderRetryable else FailedProviderNonretryable, latched';
    }
    return FailedException, latched';
  }

  /** Newest first, the first assistant message that says anything settles it. */
  method HasAssistantOutput(messages: seq<Message>) returns (found: bool)
    ensures found <==> HasOutput(messages)
  {
    var k := |messages|;
    while k > 0
      invariant 0 <= k <= |messages|
      invariant forall i :: k <= i < |messages| ==> !Speaks(messages[i])
    {
      k := k - 1;
      var m := messages[k];
      if m.Message? && m.assistant && !Blank(m.text) {
        return true;
      }
    }
    return false;
  }

  /** The cascade, in the order the source takes: each test may overwrite what stands so far. */
  method Decide(i: Input) returns (v: Outcome)
    ensures v.status == FinalStatus(i)
    ensures v.reason == FinalReason(i)
    ensures v.evidence == FinalEvidence(i)
    ensures v.notes == FinalNotes(i)
    ensures v.status == Completed <==> Earned(i)
  {
    var transcript;
    v, transcript := Weigh(i);
    hide HasOutput, Transcript, Earned, FinalNotes, Probed, Trusted, BaseReason;
    v := TrustGate(i, v, transcript);
    ghost var trusted := v;
    v := LateErrors(i, v);
    NotesAddUp(i, trusted.notes, v.notes);
    CompletedIsEarned(i);
  }

  lemma NotesAddUp(i: Input, trusted: set<Note>, final: set<Note>)
    requires trusted == Weighed(i).notes
                        + (if BaseStatus(i) == Completed && !Contradicted(i) && Probed(i) then {CompletionNote} else {})
    requires final == trusted + (if i.artifactWriteError then {WriteErrorNote} else {})
                      + (if i.finalizeError then {FinalizeNote} else {})
    ensures final == FinalNotes(i)
  {}

  /** The outcome once all that contradicts or qualifies a completion is in, before it is trusted. */
  function Weighed(i: Input): Outcome {
    var standing := BaseStatus(i) == Completed && !Contradicted(i);
    var notes := (if i.exn == NoException then {} else {ExceptionClass})
                 + (if MaybePhantom(i) then {LinkedId} else {})
                 + (if BaseStatus(i) != Completed && ContractFailed(i) then {VerificationStatus} else {})
                 + (if standing && i.gateRejected != [] then {GateNote} else {})
                 + (if i.spawnRefused != [] then {SpawnNote} else {});
    var base := if Reconciled(i) then LinkedSession else NoEvidence;
    if BaseStatus(i) != Completed then Outcome(BaseStatus(i), BaseReason(i), base, notes)
    else if ContractFailed(i) then
      Outcome(Failed, FailedMissingArtifact, MissingArtifacts(i.verification.value.missing), notes)
    else if i.failedOperations != [] then Outcome(Failed, FailedException, Operations(i.failedOperations), notes)
    else if i.escalated != [] then Outcome(Failed, FailedEscalated, Escalations(i.escalated), notes)
    else if i.spawnRefused != [] then Outcome(Completed, CompletedSpawnRefused, Spawns(i.spawnRefused), notes)
    else if i.gateRejected != [] then Outcome(Completed, CompletedGateRejected, Gates(i.gateRejected), notes)
    else Outcome(Completed, CompletedOk, base, notes)
  }

  method Weigh(i: Input) returns (v: Outcome, transcript: seq<Message>)
    ensures v == Weighed(i) && transcript == Transcript(i)
  {
    v, transcript := Reconcile(i);
    v := Backstops(i, v);
    v := DeliberateStops(i, v);
  }

  /** First reading, and the suppression of a phantom failure while the linked engine session stands. */
  method Reconcile(i: Input) returns (v: Outcome, transcript: seq<Message>)
    ensures v.status == BaseStatus(i) && transcript == Transcript(i)
    ensures v.reason == BaseReason(i)
    ensures v.evidence == if Reconciled(i) then LinkedSession else NoEvidence
    ensures v.notes == (if i.exn == NoException then {} else {ExceptionClass})
                       + (if MaybePhantom(i) then {LinkedId} else {})
  {
    var reason, _ := ResolveRunReason(i.status, i.exn, i.sigtermLatched);
    v := Outcome(i.status, reason, NoEvidence, if i.exn == NoException then {} else {ExceptionClass});
    transcript := i.messages;
    if i.status == Failed && i.exn.Provider? && i.exn.bare && i.engine {
      v := v.(notes := v.notes + {LinkedId});
      if i.linked.Some? && Terminal(i.linked.value.status) {
        var linked := i.linked.value;
        v := v.(status := linked.status, reason := PlainReason(linked.status), evidence := LinkedSession);
        transcript := transcript + linked.messages;
      } else if i.linked.Some? && i.linked.value.status == Running {
        v := v.(status := Running, reason := StartedOk, evidence := LinkedSession);
      }
    }
  }

  /** Missing artifacts, failed operations and escalations each turn a completion into a failure. */
  method Backstops(i: Input, draft: Outcome) returns (v: Outcome)
    ensures draft.status != Completed ==>
              v == draft.(notes := draft.notes + (if ContractFailed(i) then {VerificationStatus} else {}))
    ensures draft.status == Completed && !Contradicted(i) ==> v == draft
    ensures draft.status == Completed && Contradicted(i) ==>
              v == draft.(status := Failed,
                          reason := if ContractFailed(i) then FailedMissingArtifact
                                    else if i.failedOperations != [] then FailedException
                                    else FailedEscalated,
                          evidence := if ContractFailed(i) then MissingArtifacts(i.verification.value.missing)
                                      else if i.failedOperations != [] then Operations(i.failedOperations)
                                      else Escalations(i.escalated))
  {
    v := draft;
    if i.verification.Some? && i.verification.value.failed {
      if v.status == Completed {
        v := v.(status := Failed, reason := FailedMissingArtifact,
                evidence := MissingArtifacts(i.verification.value.missing));
      } else {
        v := v.(notes := v.notes + {VerificationStatus});
      }
    }
    if i.failedOperations != [] && v.status == Completed {
      v := v.(status := Failed, reason := FailedException, evidence := Operations(i.failedOperations));
    }
    if i.escalated != [] && v.status == Completed {
      v := v.(status := Failed, reason := FailedEscalated, evidence := Escalations(i.escalated));
    }
  }

  /** Gate rejections and refused spawns keep a completion and name it. */
  method DeliberateStops(i: Input, draft: Outcome) returns (v: Outcome)
    ensures v.status == draft.status
    ensures v.notes == draft.notes
                       + (if i.gateRejected != [] && draft.status == Completed then {GateNote} else {})
                       + (if i.spawnRefused != [] then {SpawnNote} else {})
    ensures if draft.status == Completed && i.spawnRefused != [] then
              v.reason == CompletedSpawnRefused && v.evidence == Spawns(i.spawnRefused)
            else if draft.status == Completed && i.gateRejected != [] then
              v.reason == CompletedGateRejected && v.evidence == Gates(i.gateRejected)
            else v.reason == draft.reason && v.evidence == draft.evidence
  {
    v := draft;
    if i.gateRejected != [] && v.status == Completed {
      v := v.(notes := v.notes + {GateNote}, reason := CompletedGateRejected, evidence := Gates(i.gateRejected));
    }
    if i.spawnRefused != [] {
      v := v.(notes := v.notes + {SpawnNote});
      if v.status == Completed {
        v := v.(reason := CompletedSpawnRefused, evidence := Spawns(i.spawnRefused));
      }
    }
  }

  /** "completed" is not taken on faith: without any ground it becomes "completed_empty". */
  method TrustGate(i: Input, draft: Outcome, transcript: seq<Message>) returns (v: Outcome)
    requires transcript == Transcript(i)
    ensures v.notes == draft.notes
                       + (if draft.status == Completed && Probed(i) then {CompletionNote} else {})
    ensures if draft.status == Completed && !Trusted(i)
            then v == Outcome(CompletedEmpty, CompletedEmptyNoEvidence, GitCheck, v.notes)
            else v == draft.(notes := v.notes)
  {
    v := draft;
    if v.status == Completed && i.gateRejected == [] && i.spawnRefused == []
       && !(i.verification.Some? && i.verification.value.produced != [])
    {
      if i.git.checked {
        var output := HasAssistantOutput(transcript);
        v := v.(notes := v.notes + {CompletionNote});
        if !(i.git.ahead || i.git.dirty) && !output {
          v := v.(status := CompletedEmpty, reason := CompletedEmptyNoEvidence, evidence := GitCheck);
        }
      }
    }
  }

  /** An output that could not be written fails the run; a finalize step that raised only names it. */
  method LateErrors(i: Input, draft: Outcome) returns (v: Outcome)
    ensures v.notes == draft.notes + (if i.artifactWriteError then {WriteErrorNote} else {})
                       + (if i.finalizeError then {FinalizeNote} else {})
    ensures if draft.status == Completed && i.artifactWriteError
            then v == Outcome(Failed, FailedArtifactWrite, WriteError, v.notes)
            else if draft.status == Completed && i.finalizeError
            then v == Outcome(Completed, CompletedFinalizeError, FinalizeStep, v.notes)
            else v == draft.(notes := v.notes)
  {
    v := draft;
    if i.artifactWriteError {
      v := v.(notes := v.notes + {WriteErrorNote});
      if v.status == Completed {
        v := v.(status := Failed, reason := FailedArtifactWrite, evidence := WriteError);
      }
    }
    if i.finalizeError {
      v := v.(notes := v.notes + {FinalizeNote});
      if v.status == Completed {
        v := v.(reason := CompletedFinalizeError, evidence := FinalizeStep);
      }
    }
  }

  // ---------- What the verdict promises ----------

  /** A run is recorded as completed exactly when it earned it. */
  lemma CompletedIsEarned(i: Input)
    ensures FinalStatus(i) == Completed <==> Earned(i)
  {
    if Claimed(i) && Reconciled(i) {
      var own, linked := i.messages, i.linked.value.messages;
      assert forall k :: 0 <= k < |own| ==> (own + linked)[k] == own[k];
      assert forall k :: 0 <= k < |linked| ==> (own + linked)[|own| + k] == linked[k];
    }
  }

  /** Status and reason always speak of the same outcome, unless a teardown were asked for "running", which
      the signature admits: its first reading falls through to the failure codes. */
  lemma ReasonBelongsToStatus(i: Input)
    ensures FinalReason(i).Family() == FinalStatus(i) <==> i.status != Running
  {
  }

  /** Only a linked engine session that is still alive leaves a finished run recorded as running. */
  lemma RunningMeansLinkedAlive(i: Input)
    requires Terminal(i.status)
    ensures FinalStatus(i) == Running <==> Reconciled(i) && i.linked.value.status == Running
  {
  }

  /** Less against the run, or more for it: some evidence of failure gone, some ground added, messages
      added anywhere; what the caller says of it and the linked session being the same. */
  predicate NoWorse(i: Input, j: Input) {
    && j.status == i.status && j.exn == i.exn && j.engine == i.engine && j.linked == i.linked
    && (i.failedOperations == [] ==> j.failedOperations == [])
    && (i.escalated == [] ==> j.escalated == [])
    && (ContractFailed(j) ==> ContractFailed(i))
    && (j.artifactWriteError ==> i.artifactWriteError)
    && (i.gateRejected != [] ==> j.gateRejected != []) && (i.spawnRefused != [] ==> j.spawnRefused != [])
    && (i.verification.Some? && i.verification.value.produced != [] ==>
          j.verification.Some? && j.verification.value.produced != [])
    && (j.git.checked ==> i.git.checked) && (i.git.ahead ==> j.git.ahead) && (i.git.dirty ==> j.git.dirty)
    && forall m :: m in i.messages ==> m in j.messages
  }

  /** The cascade is monotone in the evidence: what was completed stays so when there is less against it
      or more for it, whichever backstop or gate the change passes through. */
  lemma VerdictIsMonotone(i: Input, j: Input)
    requires NoWorse(i, j) && FinalStatus(i) == Completed
    ensures FinalStatus(j) == Completed
  {
    CompletedIsEarned(i);
    CompletedIsEarned(j);
    if k :| 0 <= k < |i.messages| && Speaks(i.messages[k]) {
      assert i.messages[k] in j.messages;
    }
  }

  lemma OutputIsTrusted(i: Input)
    requires HasOutput(i.messages)
    ensures Trusted(i)
  {
    var k :| 0 <= k < |i.messages| && Speaks(i.messages[k]);
    assert Transcript(i)[k] == i.messages[k];
  }

  /** A completion is never lost silently: when the base status said completed and the final one does
      not, the reason and evidence name the cause. */
  lemma DemotionNamesItsCause(i: Input)
    requires BaseStatus(i) == Completed && FinalStatus(i) != Completed
    ensures match FinalEvidence(i)
            case MissingArtifacts(_) => ContractFailed(i) && FinalReason(i) == FailedMissingArtifact
            case Operations(ids) => ids != [] && ids == i.failedOperations && FinalReason(i) == FailedException
            case Escalations(ids) => ids != [] && ids == i.escalated && FinalReason(i) == FailedEscalated
            case GitCheck => !HasOutput(i.messages) && FinalReason(i) == CompletedEmptyNoEvidence
            case WriteError => i.artifactWriteError && FinalReason(i) == FailedArtifactWrite
            case _ => false
  {
    if HasOutput(i.messages) {
      OutputIsTrusted(i);
    }
  }
}
