/**
 * Write-once sealed run results. Any number of finalizers race to create the snapshot and its integrity file; each
 * may fail or die anywhere, and readers look at any moment.
 */
module SealedResult {
  import opened Basics

  datatype Payload = Payload(runId: string, body: nat)

  /** The digest of a payload; distinct payloads have distinct digests. */
  datatype Digest = Sha256(of: Payload)

  datatype Integrity = Integrity(version: int, runId: string, algorithm: string, digest: Digest)

  /** A file that exists: created but not fully written, or holding a document. */
  datatype Content<T> = Partial | Full(value: T)

  /** Where a finalizer stands; `...Written` has its bytes visible but not yet synced. */
  datatype Pc = Ready | SnapshotOpen | SnapshotWritten | SnapshotSealed | IntegrityOpen | IntegrityWritten | Won | Lost | Failed

  datatype Writer = Writer(payload: Payload, pc: Pc)

  datatype State = State(
    runId: string,
    snapshot: Option<Content<Payload>>,
    integrity: Option<Content<Integrity>>,
    writers: map<nat, Writer>)

  datatype Step =
    | Arrive(w: nat, body: nat)
    | Create(w: nat)
    | Write(w: nat)
    | Sync(w: nat)
    | Fail(w: nat, unlinked: bool)
    | Die(w: nat)

  // ---------------------------------------------------------------- reading

  datatype Verdict =
    | SnapshotMissing | RunIdMismatch | IntegrityMissing | IntegrityInvalid | IntegrityMismatch
    | Verified(payload: Payload)

  /**
   * A checked read: the snapshot is read first, the integrity file later. A document that does not parse reads as
   * if it were not there.
   */
  function ReadAcross(first: State, later: State): Verdict {
    if first.snapshot.None? || first.snapshot.value.Partial? then SnapshotMissing
    else
      var payload := first.snapshot.value.value;
      if payload.runId != first.runId then RunIdMismatch
      else if later.integrity.None? || later.integrity.value.Partial? then IntegrityMissing
      else
        var seal := later.integrity.value.value;
        if seal.version != 1 || seal.runId != first.runId || seal.algorithm != "sha256" then IntegrityInvalid
        else if seal.digest != Sha256(payload) then IntegrityMismatch
        else Verified(payload)
  }

  /** A read during which nothing happens. */
  function Read(s: State): Verdict {
    ReadAcross(s, s)
  }

  /** Every verdict of a read, in terms of what its two looks found. */
  lemma VerdictsMean(first: State, later: State, p: Payload, seal: Integrity)
    ensures ReadAcross(first, later) == SnapshotMissing <==> first.snapshot.None? || first.snapshot == Some(Partial)
    ensures first.snapshot == Some(Full(p)) ==> (ReadAcross(first, later) == RunIdMismatch <==> p.runId != first.runId)
    ensures first.snapshot == Some(Full(p)) && p.runId == first.runId ==>
      (ReadAcross(first, later) == IntegrityMissing <==> later.integrity.None? || later.integrity == Some(Partial))
    ensures first.snapshot == Some(Full(p)) && p.runId == first.runId && later.integrity == Some(Full(seal)) ==>
      var valid := seal.version == 1 && seal.runId == first.runId && seal.algorithm == "sha256";
      && (ReadAcross(first, later) == IntegrityInvalid <==> !valid)
      && (ReadAcross(first, later) == Verified(p) <==> valid && seal.digest == Sha256(p))
    ensures ReadAcross(first, later).Verified? ==> first.snapshot == Some(Full(ReadAcross(first, later).payload))
  {
  }

  // ---------------------------------------------------------------- finalizing

  predicate Enabled(s: State, step: Step) {
    match step
    case Arrive(w, _) => w !in s.writers
    case Create(w) => w in s.writers && (s.writers[w].pc.Ready? || s.writers[w].pc.SnapshotSealed?)
    case Write(w) => w in s.writers && (s.writers[w].pc.SnapshotOpen? || s.writers[w].pc.IntegrityOpen?)
    case Sync(w) => w in s.writers && (s.writers[w].pc.SnapshotWritten? || s.writers[w].pc.IntegrityWritten?)
    case Fail(w, _) => w in s.writers && Writing(s.writers[w].pc)
    case Die(w) => w in s.writers
  }

  /** Between an exclusive creation and its sync. */
  predicate Writing(pc: Pc) {
    pc.SnapshotOpen? || pc.SnapshotWritten? || pc.IntegrityOpen? || pc.IntegrityWritten?
  }

  function At(s: State, w: nat, pc: Pc): State
    requires w in s.writers
  {
    s.(writers := s.writers[w := s.writers[w].(pc := pc)])
  }

  function Seal(payload: Payload): Integrity {
    Integrity(1, payload.runId, "sha256", Sha256(payload))
  }

  function Effect(s: State, step: Step): State
    requires Enabled(s, step)
  {
    match step
    case Arrive(w, body) => s.(writers := s.writers[w := Writer(Payload(s.runId, body), Ready)])
    case Create(w) =>
      if s.writers[w].pc.Ready? then
        if s.snapshot.Some? then At(s, w, Lost) else At(s, w, SnapshotOpen).(snapshot := Some(Partial))
      else
        if s.integrity.Some? then At(s, w, Lost) else At(s, w, IntegrityOpen).(integrity := Some(Partial))
    case Write(w) =>
      if s.writers[w].pc.SnapshotOpen? then At(s, w, SnapshotWritten).(snapshot := Some(Full(s.writers[w].payload)))
      else At(s, w, IntegrityWritten).(integrity := Some(Full(Seal(s.writers[w].payload))))
    case Sync(w) => At(s, w, if s.writers[w].pc.SnapshotWritten? then SnapshotSealed else Won)
    case Fail(w, unlinked) =>
      var next := At(s, w, Failed);
      if !unlinked then next
      else if s.writers[w].pc.SnapshotOpen? || s.writers[w].pc.SnapshotWritten? then next.(snapshot := None)
      else next.(integrity := None)
    case Die(w) => s.(writers := s.writers - {w})
  }

  ghost predicate IsRun(tr: seq<State>, steps: seq<Step>) {
    && |tr| == |steps| + 1
    && forall i {:trigger steps[i]} :: 0 <= i < |steps| ==> Enabled(tr[i], steps[i]) && tr[i + 1] == Effect(tr[i], steps[i])
  }

  ghost predicate Initial(s: State) {
    s.snapshot.None? && s.integrity.None? && s.writers == map[]
  }

  // ---------------------------------------------------------------- what every step keeps

  /** Who has created the snapshot and may still touch or follow it up. */
  predicate OwnsSnapshot(pc: Pc) {
    pc.SnapshotOpen? || pc.SnapshotWritten? || pc.SnapshotSealed? || pc.IntegrityOpen? || pc.IntegrityWritten? || pc.Won?
  }

  ghost predicate WriterOk(s: State, w: nat) {
    w in s.writers ==>
      var Writer(payload, pc) := s.writers[w];
      && payload.runId == s.runId
      && (OwnsSnapshot(pc) ==>
            && s.snapshot.Some?
            && (forall v :: v in s.writers && v != w ==> !OwnsSnapshot(s.writers[v].pc))
            && (!pc.SnapshotOpen? ==> s.snapshot == Some(Full(payload))))
      && (pc.SnapshotOpen? || pc.SnapshotWritten? || pc.SnapshotSealed? ==> s.integrity.None?)
      && (pc.IntegrityOpen? ==> s.integrity == Some(Partial))
      && (pc.IntegrityWritten? || pc.Won? ==> s.integrity == Some(Full(Seal(payload))))
  }

  /** An integrity file always belongs to the snapshot that is there. */
  ghost predicate Inv(s: State) {
    && (forall w :: WriterOk(s, w))
    && (s.snapshot.Some? && s.snapshot.value.Full? ==> s.snapshot.value.value.runId == s.runId)
    && (s.integrity.Some? ==> s.snapshot.Some? && s.snapshot.value.Full?)
    && (s.integrity.Some? && s.integrity.value.Full? ==> s.integrity.value.value == Seal(s.snapshot.value.value))
  }

  lemma StepKeeps(s: State, step: Step)
    requires Inv(s) && Enabled(s, step)
    ensures Inv(Effect(s, step))
  {
    assert step.Arrive? || WriterOk(s, step.w);
    forall v | v in s.writers && OwnsSnapshot(s.writers[v].pc) ensures s.snapshot.Some? {
      assert WriterOk(s, v);
    }
    forall w ensures WriterOk(Effect(s, step), w) {
      assert WriterOk(s, w);
    }
  }

  lemma {:induction false} RunKeeps(tr: seq<State>, steps: seq<Step>, i: nat)
    requires IsRun(tr, steps) && Inv(tr[0]) && i <= |steps|
    ensures Inv(tr[i])
  {
    if i > 0 {
      RunKeeps(tr, steps, i - 1);
      StepKeeps(tr[i - 1], steps[i - 1]);
    }
  }

  ghost predicate Reachable(s: State) {
    exists tr, steps :: IsRun(tr, steps) && Initial(tr[0]) && tr[|steps|] == s
  }

  lemma ReachableInv(s: State)
    requires Reachable(s)
    ensures Inv(s)
  {
    var tr, steps :| IsRun(tr, steps) && Initial(tr[0]) && tr[|steps|] == s;
    RunKeeps(tr, steps, |steps|);
  }

  // ---------------------------------------------------------------- one payload for ever

  /** The snapshot is there for good: whoever created it has synced it, failed without removing it, or died. */
  ghost predicate Settled(s: State, payload: Payload) {
    && s.snapshot == Some(Full(payload))
    && forall w :: w in s.writers ==> !s.writers[w].pc.SnapshotOpen? && !s.writers[w].pc.SnapshotWritten?
  }

  lemma VerifiedIsSettled(s: State)
    requires Inv(s) && Read(s).Verified?
    ensures Settled(s, Read(s).payload)
  {
    forall w | w in s.writers ensures !s.writers[w].pc.SnapshotOpen? && !s.writers[w].pc.SnapshotWritten? {
      assert WriterOk(s, w);
    }
  }

  lemma {:induction false} SettledLasts(tr: seq<State>, steps: seq<Step>, payload: Payload, i: nat, j: nat)
    requires IsRun(tr, steps) && i <= j <= |steps| && Settled(tr[i], payload)
    ensures Settled(tr[j], payload)
  {
    if i < j {
      SettledLasts(tr, steps, payload, i, j - 1);
      assert tr[j] == Effect(tr[j - 1], steps[j - 1]);
    }
  }

  /** Under any interleaving, failures and deaths included, all verified reads of a run give the same payload. */
  lemma OnePayload(tr: seq<State>, steps: seq<Step>, i: nat, j: nat)
    requires IsRun(tr, steps) && Inv(tr[0]) && i <= j <= |steps|
    requires Read(tr[i]).Verified?
    ensures Read(tr[j]) == Read(tr[i]) || Read(tr[j]).IntegrityMissing?
  {
    RunKeeps(tr, steps, i);
    RunKeeps(tr, steps, j);
    VerifiedIsSettled(tr[i]);
    SettledLasts(tr, steps, Read(tr[i]).payload, i, j);
  }

  lemma {:induction false} RunIdLasts(tr: seq<State>, steps: seq<Step>, i: nat, j: nat)
    requires IsRun(tr, steps) && i <= j <= |steps|
    ensures tr[i].runId == tr[j].runId
  {
    if i < j {
      RunIdLasts(tr, steps, i, j - 1);
      assert tr[j] == Effect(tr[j - 1], steps[j - 1]);
    }
  }

  /**
   * A read that other steps interleave with is as good as one at its second look: if it is verified, so is that one,
   * with the same payload. It can report a mismatch only if it saw a snapshot whose writer took it back.
   */
  lemma SlowReadsAreSafe(tr: seq<State>, steps: seq<Step>, i: nat, j: nat)
    requires IsRun(tr, steps) && Inv(tr[0]) && i <= j <= |steps|
    ensures var verdict := ReadAcross(tr[i], tr[j]);
      && (verdict.Verified? ==> Read(tr[j]) == verdict)
      && !verdict.RunIdMismatch? && !verdict.IntegrityInvalid?
      && (verdict.IntegrityMismatch? ==> !Settled(tr[i], tr[i].snapshot.value.value) && tr[j].snapshot != tr[i].snapshot)
  {
    RunKeeps(tr, steps, i);
    RunKeeps(tr, steps, j);
    RunIdLasts(tr, steps, i, j);
    if ReadAcross(tr[i], tr[j]).IntegrityMismatch? && Settled(tr[i], tr[i].snapshot.value.value) {
      SettledLasts(tr, steps, tr[i].snapshot.value.value, i, j);
    }
  }

  /** The single payload: all verified reads of a run, however slow and in whatever order, give the same one. */
  lemma AllReadersAgree(tr: seq<State>, steps: seq<Step>, i: nat, j: nat, i': nat, j': nat)
    requires IsRun(tr, steps) && Inv(tr[0]) && i <= j <= |steps| && i' <= j' <= |steps|
    requires ReadAcross(tr[i], tr[j]).Verified? && ReadAcross(tr[i'], tr[j']).Verified?
    ensures ReadAcross(tr[i], tr[j]) == ReadAcross(tr[i'], tr[j'])
  {
    SlowReadsAreSafe(tr, steps, i, j);
    SlowReadsAreSafe(tr, steps, i', j');
    if j <= j' {
      OnePayload(tr, steps, j, j');
    } else {
      OnePayload(tr, steps, j', j);
    }
  }

  /** The one writer that could still withdraw the integrity file: its bytes are visible, its sync is pending. */
  ghost predicate SyncPending(s: State) {
    exists w :: w in s.writers && s.writers[w].pc.IntegrityWritten?
  }

  ghost predicate Permanent(s: State, payload: Payload) {
    Settled(s, payload) && Read(s) == Verified(payload) && !SyncPending(s)
    && forall w :: w in s.writers ==> !s.writers[w].pc.IntegrityOpen?
  }

  lemma {:induction false} PermanentLasts(tr: seq<State>, steps: seq<Step>, payload: Payload, j: nat)
    requires IsRun(tr, steps) && j <= |steps| && Permanent(tr[0], payload)
    ensures Permanent(tr[j], payload)
  {
    if j > 0 {
      PermanentLasts(tr, steps, payload, j - 1);
      var s, step := tr[j - 1], steps[j - 1];
      forall w | w in tr[j].writers
        ensures !tr[j].writers[w].pc.IntegrityWritten? && !tr[j].writers[w].pc.IntegrityOpen?
      {
        assert w in s.writers ==> !s.writers[w].pc.IntegrityWritten? && !s.writers[w].pc.IntegrityOpen?;
      }
    }
  }

  /**
   * A verified result stays verified in every continuation exactly when no writer is between making its integrity
   * file visible and syncing it; until then a failed sync can still take the result back.
   */
  lemma VerifiedStaysVerified(s: State)
    requires Inv(s) && Read(s).Verified?
    ensures (forall tr, steps :: IsRun(tr, steps) && tr[0] == s ==> Read(tr[|steps|]) == Read(s)) <==> !SyncPending(s)
  {
    if SyncPending(s) {
      var w :| w in s.writers && s.writers[w].pc.IntegrityWritten?;
      var step := Fail(w, true);
      var tr := [s, Effect(s, step)];
      assert IsRun(tr, [step]) && Read(tr[1]).IntegrityMissing?;
    } else {
      VerifiedIsSettled(s);
      forall w | w in s.writers ensures !s.writers[w].pc.IntegrityOpen? {
        assert WriterOk(s, w);
      }
      forall tr, steps | IsRun(tr, steps) && tr[0] == s ensures Read(tr[|steps|]) == Read(s) {
        PermanentLasts(tr, steps, Read(s).payload, |steps|);
      }
    }
  }

  /** Once some finalizer has returned success, its payload is what every later read gives, slow ones included. */
  lemma SuccessIsPermanent(tr: seq<State>, steps: seq<Step>, w: nat, i: nat, k: nat, j: nat)
    requires IsRun(tr, steps) && Inv(tr[0]) && i <= k <= j <= |steps|
    requires w in tr[i].writers && tr[i].writers[w].pc.Won?
    ensures ReadAcross(tr[k], tr[j]) == Verified(tr[i].writers[w].payload)
  {
    var s := tr[i];
    RunKeeps(tr, steps, i);
    assert WriterOk(s, w);
    VerifiedIsSettled(s);
    assert !SyncPending(s) by {
      forall v | v in s.writers ensures !s.writers[v].pc.IntegrityWritten? {
        assert v != w ==> !OwnsSnapshot(s.writers[v].pc);
      }
    }
    VerifiedStaysVerified(s);
    assert IsRun(tr[i..j + 1], steps[i..j]);
    SettledLasts(tr, steps, s.writers[w].payload, i, k);
    RunIdLasts(tr, steps, k, j);
    RunIdLasts(tr, steps, i, k);
  }

  lemma ReachStep(s: State, step: Step)
    requires Reachable(s) && Enabled(s, step)
    ensures Reachable(Effect(s, step))
  {
    var tr, steps :| IsRun(tr, steps) && Initial(tr[0]) && tr[|steps|] == s;
    assert IsRun(tr + [Effect(s, step)], steps + [step]);
  }

  /** A lone finalizer gets as far as a sealed snapshot. */
  lemma LoneSnapshot(runId: string, body: nat) returns (s: State)
    ensures Reachable(s) && s.runId == runId && s.snapshot == Some(Full(Payload(runId, body))) && s.integrity.None?
    ensures 0 in s.writers && s.writers[0] == Writer(Payload(runId, body), SnapshotSealed)
  {
    s := State(runId, None, None, map[]);
    assert IsRun([s], []) && Initial([s][0]);
    ReachStep(s, Arrive(0, body));
    s := Effect(s, Arrive(0, body));
    ReachStep(s, Create(0));
    s := Effect(s, Create(0));
    ReachStep(s, Write(0));
    s := Effect(s, Write(0));
    ReachStep(s, Sync(0));
    s := Effect(s, Sync(0));
  }

  /** A result can be verified and then taken back: the sync of the integrity file fails. */
  lemma ResultCanBeTakenBack(runId: string, body: nat) returns (s: State, step: Step)
    ensures Reachable(s) && Enabled(s, step)
    ensures Read(s) == Verified(Payload(runId, body)) && Read(Effect(s, step)).IntegrityMissing?
  {
    s := LoneSnapshot(runId, body);
    ReachStep(s, Create(0));
    s := Effect(s, Create(0));
    ReachStep(s, Write(0));
    s := Effect(s, Write(0));
    step := Fail(0, true);
  }

  /** A finalizer that is left alone succeeds, and its payload is what is read. */
  lemma LoneFinalizerSucceeds(runId: string, body: nat) returns (s: State)
    ensures Reachable(s) && 0 in s.writers && s.writers[0].pc.Won?
    ensures Read(s) == Verified(Payload(runId, body))
  {
    s := LoneSnapshot(runId, body);
    ReachStep(s, Create(0));
    s := Effect(s, Create(0));
    ReachStep(s, Write(0));
    s := Effect(s, Write(0));
    ReachStep(s, Sync(0));
    s := Effect(s, Sync(0));
  }

  // ---------------------------------------------------------------- when a run can still be sealed

  ghost predicate Sealable(s: State) {
    exists tr, steps :: IsRun(tr, steps) && tr[0] == s && Read(tr[|steps|]).Verified?
  }

  ghost predicate HasOwner(s: State) {
    exists w :: w in s.writers && OwnsSnapshot(s.writers[w].pc)
  }

  lemma SealableBefore(s: State, step: Step)
    requires Enabled(s, step) && Sealable(Effect(s, step))
    ensures Sealable(s)
  {
    var tr, steps :| IsRun(tr, steps) && tr[0] == Effect(s, step) && Read(tr[|steps|]).Verified?;
    var tr', steps' := [s] + tr, [step] + steps;
    forall i | 0 <= i < |steps'| ensures Enabled(tr'[i], steps'[i]) && tr'[i + 1] == Effect(tr'[i], steps'[i]) {
      assert i > 0 ==> steps'[i] == steps[i - 1];
    }
    assert IsRun(tr', steps') && tr'[|steps'|] == tr[|steps|];
  }

  /** How many steps a snapshot's creator is from a visible integrity file. */
  function Ahead(pc: Pc): nat {
    if pc.SnapshotOpen? then 4 else if pc.SnapshotWritten? then 3 else if pc.SnapshotSealed? then 2
    else if pc.IntegrityOpen? then 1 else 0
  }

  lemma {:induction false} OwnerSeals(s: State, w: nat)
    requires Inv(s) && w in s.writers && OwnsSnapshot(s.writers[w].pc)
    ensures Sealable(s)
    decreases Ahead(s.writers[w].pc)
  {
    assert WriterOk(s, w);
    var pc := s.writers[w].pc;
    if pc.IntegrityWritten? || pc.Won? {
      assert IsRun([s], []) && Read([s][0]).Verified?;
    } else {
      var step := if pc.SnapshotOpen? || pc.IntegrityOpen? then Write(w) else if pc.SnapshotWritten? then Sync(w) else Create(w);
      StepKeeps(s, step);
      OwnerSeals(Effect(s, step), w);
      SealableBefore(s, step);
    }
  }

  lemma {:induction false} FreshWriter(writers: set<nat>) returns (n: nat)
    ensures forall w :: w in writers ==> w < n
  {
    if writers == {} {
      n := 0;
    } else {
      var w :| w in writers;
      n := FreshWriter(writers - {w});
      assert forall v :: v in writers ==> v == w || v in writers - {w};
      n := if n <= w then w + 1 else n;
    }
  }

  /** The snapshot is there, unverified, and nobody is left to follow it up. */
  ghost predicate Abandoned(s: State) {
    s.snapshot.Some? && !Read(s).Verified? && !HasOwner(s)
  }

  lemma {:induction false} AbandonedForever(tr: seq<State>, steps: seq<Step>, i: nat)
    requires IsRun(tr, steps) && Abandoned(tr[0]) && i <= |steps|
    ensures Abandoned(tr[i])
  {
    if i > 0 {
      AbandonedForever(tr, steps, i - 1);
      assert tr[i] == Effect(tr[i - 1], steps[i - 1]);
      forall w | w in tr[i].writers ensures !OwnsSnapshot(tr[i].writers[w].pc) {
        assert w in tr[i - 1].writers ==> !OwnsSnapshot(tr[i - 1].writers[w].pc);
      }
    }
  }

  /**
   * A run can still come to a verified result exactly when it has one, or has no snapshot yet, or the creator of the
   * snapshot is still at work; any other snapshot blocks sealing for good.
   */
  lemma SealableExactly(s: State)
    requires Inv(s)
    ensures Sealable(s) <==> Read(s).Verified? || s.snapshot.None? || HasOwner(s)
  {
    if Read(s).Verified? {
      assert IsRun([s], []) && Read([s][0]).Verified?;
    } else if w :| w in s.writers && OwnsSnapshot(s.writers[w].pc) {
      OwnerSeals(s, w);
    } else if s.snapshot.None? {
      var w := FreshWriter(s.writers.Keys);
      var arrived := Effect(s, Arrive(w, 0));
      StepKeeps(s, Arrive(w, 0));
      StepKeeps(arrived, Create(w));
      OwnerSeals(Effect(arrived, Create(w)), w);
      SealableBefore(arrived, Create(w));
      SealableBefore(s, Arrive(w, 0));
    } else {
      forall tr, steps | IsRun(tr, steps) && tr[0] == s ensures !Read(tr[|steps|]).Verified? {
        AbandonedForever(tr, steps, |steps|);
      }
    }
  }

  lemma OneOwner(s: State, s': State, w: nat)
    requires Inv(s) && w in s.writers && OwnsSnapshot(s.writers[w].pc)
    requires s'.writers - {w} == s.writers - {w} && (w in s'.writers ==> !OwnsSnapshot(s'.writers[w].pc))
    ensures !HasOwner(s')
  {
    assert WriterOk(s, w);
    forall v | v in s'.writers ensures !OwnsSnapshot(s'.writers[v].pc) {
      if v != w {
        assert v in s'.writers - {w} && s'.writers[v] == (s'.writers - {w})[v] == (s.writers - {w})[v] == s.writers[v];
      }
    }
  }

  /** If the creator of a snapshot dies before its result is verified, no finalizer can ever seal the run. */
  lemma DeathBlocksSealing(s: State, w: nat)
    requires Inv(s) && w in s.writers && OwnsSnapshot(s.writers[w].pc)
    ensures Sealable(Effect(s, Die(w))) <==> Read(s).Verified?
  {
    assert WriterOk(s, w);
    StepKeeps(s, Die(w));
    OneOwner(s, Effect(s, Die(w)), w);
    SealableExactly(Effect(s, Die(w)));
  }

  /** A failed write leaves the run sealable exactly when it removed the snapshot, or failed to remove a visible seal. */
  lemma FailureMayBlockSealing(s: State, w: nat, unlinked: bool)
    requires Inv(s) && Enabled(s, Fail(w, unlinked))
    ensures Sealable(Effect(s, Fail(w, unlinked))) <==>
      if unlinked then s.writers[w].pc.SnapshotOpen? || s.writers[w].pc.SnapshotWritten? else s.writers[w].pc.IntegrityWritten?
  {
    assert WriterOk(s, w);
    StepKeeps(s, Fail(w, unlinked));
    OneOwner(s, Effect(s, Fail(w, unlinked)), w);
    SealableExactly(Effect(s, Fail(w, unlinked)));
  }
}
