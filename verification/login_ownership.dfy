/**
 Who may touch the outputs: promoters and recoverers running side by side, any of which may throw
 or die between two steps, with process ids that may be used again.
*/
module LoginOwnership {
  import opened Faults
  import opened LoginPromotion

  // Where a live process stands. The last four constructors are the phases in which it acts for a
  // generation: publishing, undoing, confirming a commit, and emptying the released directory.
  datatype Phase =
    | Idle
    | Preparing(g: Generation)
    | SawGate(g: Generation)
    | SawName(g: Generation, holder: Holder)
    | Ready(g: Generation, holder: Holder)
    | Publishing(g: Generation)
    | Undoing(g: Generation)
    | Confirming(g: Generation)
    | Releasing(g: Generation, marked: bool)

  // The name of a journal file and the process id written in it.
  datatype JournalFile = JournalFile(holder: Holder, writer: Pid)

  datatype State = State(
    // Live processes.
    procs: map<Pid, Phase>,
    gate: Option<Generation>,
    journals: map<Generation, JournalFile>,
    // Generations whose `committed` marker exists.
    markers: set<Generation>,
    // History: generations drawn, linked as the gate, committed, and released by a process that
    // stopped before it removed the journal; names drawn for claims.
    used: set<Generation>,
    linked: set<Generation>,
    committed: set<Generation>,
    orphans: set<Generation>,
    uuids: set<nat>)

  datatype Action =
    | Spawn(p: Pid)
    | Die(p: Pid)
    | Throw(p: Pid)
    | Prepare(p: Pid, g: Generation)
    | LinkGate(p: Pid)
    | Commit(p: Pid)
    | Abandon(p: Pid)
    | Release(p: Pid)
    | DropMarker(p: Pid)
    | DropJournal(p: Pid)
    | ReadGate(p: Pid)
    | ReadName(p: Pid)
    | CheckWriter(p: Pid)
    | Claim(p: Pid, uuid: nat)

  const START := State(map[], None, map[], {}, {}, {}, {}, {}, {})

  predicate Acts(ph: Phase, g: Generation) {
    (ph.Publishing? || ph.Undoing? || ph.Confirming? || ph.Releasing?) && ph.g == g
  }

  function Owner(f: JournalFile): Pid {
    if f.holder.Claimant? then f.holder.pid else f.writer
  }

  function To(s: State, p: Pid, ph: Phase): State {
    s.(procs := s.procs[p := ph])
  }

  // A process that stops while emptying a released directory leaves its journal behind.
  function Leave(s: State, p: Pid): State
    requires p in s.procs
  {
    if s.procs[p].Releasing? then s.(orphans := s.orphans + {s.procs[p].g}) else s
  }

  // One step. An action that does not fit the phase of its process does nothing.
  function Apply(s: State, a: Action): State {
    if a.Spawn? then
      if a.p in s.procs then s else To(s, a.p, Idle)
    else if a.p !in s.procs then s
    else
      var p, ph := a.p, s.procs[a.p];
      match a
      case Die(_) => Leave(s, p).(procs := s.procs - {p})
      case Throw(_) => To(Leave(s, p), p, Idle)
      case Prepare(_, g) =>
        if ph.Idle? && g !in s.used then
          To(s, p, Preparing(g)).(used := s.used + {g}, journals := s.journals[g := JournalFile(Writer, p)])
        else s
      case LinkGate(_) =>
        if !ph.Preparing? then s
        else if s.gate.None? then To(s, p, Publishing(ph.g)).(gate := Some(ph.g), linked := s.linked + {ph.g})
        else To(s, p, Idle).(journals := s.journals - {ph.g})
      case Commit(_) =>
        if ph.Publishing? then
          To(s, p, Confirming(ph.g)).(markers := s.markers + {ph.g}, committed := s.committed + {ph.g})
        else s
      case Abandon(_) =>
        if ph.Publishing? then To(s, p, Undoing(ph.g)) else s
      case Release(_) =>
        if !(ph.Undoing? || ph.Confirming?) then s
        else if s.gate == Some(ph.g) then To(s, p, Releasing(ph.g, true)).(gate := None)
        else To(s, p, Idle)
      case DropMarker(_) =>
        if ph.Releasing? && ph.marked then To(s, p, Releasing(ph.g, false)).(markers := s.markers - {ph.g}) else s
      case DropJournal(_) =>
        if ph.Releasing? && !ph.marked then To(s, p, Idle).(journals := s.journals - {ph.g}) else s
      case ReadGate(_) =>
        if ph.Idle? && s.gate.Some? then To(s, p, SawGate(s.gate.value)) else s
      case ReadName(_) =>
        if !ph.SawGate? then s
        else if ph.g in s.journals &&
          !(s.journals[ph.g].holder.Claimant? && s.journals[ph.g].holder.pid in s.procs) then
          To(s, p, SawName(ph.g, s.journals[ph.g].holder))
        else To(s, p, Idle)
      case CheckWriter(_) =>
        if !ph.SawName? then s
        else if ph.g in s.journals && s.journals[ph.g].holder == ph.holder && s.journals[ph.g].writer !in s.procs then
          To(s, p, Ready(ph.g, ph.holder))
        else To(s, p, Idle)
      case Claim(_, uuid) =>
        if !ph.Ready? || uuid in s.uuids then s
        else if Claimable(s, ph) then
          To(s, p, if ph.g in s.markers then Confirming(ph.g) else Undoing(ph.g)).(
            uuids := s.uuids + {uuid},
            journals := s.journals[ph.g := JournalFile(Claimant(p, uuid), s.journals[ph.g].writer)])
        else To(s, p, Idle)
  }

  // The rename of exactly the journal name that was read would succeed.
  predicate Claimable(s: State, ph: Phase) {
    ph.Ready? && ph.g in s.journals && s.journals[ph.g].holder == ph.holder
  }

  function Run(actions: seq<Action>): State {
    if actions == [] then START else Apply(Run(actions[..|actions| - 1]), actions[|actions| - 1])
  }

  // Whoever the journal of `g` names is not acting for it.
  predicate OwnerGone(s: State, g: Generation)
    requires g in s.journals
  {
    var o := Owner(s.journals[g]);
    o in s.procs ==> !Acts(s.procs[o], g) && s.procs[o] != Preparing(g)
  }

  // A contender that has checked the owner of the name it read.
  predicate Checked(ph: Phase) {
    ph.Ready? || (ph.SawName? && ph.holder.Claimant?)
  }

  predicate ProcInv(s: State, p: Pid)
    requires p in s.procs
  {
    var ph := s.procs[p];
    && (!ph.Idle? ==> ph.g in s.used)
    && (!ph.Idle? && !ph.Preparing? ==> ph.g in s.linked)
    && (ph.Preparing? ==> ph.g !in s.linked && ph.g !in s.committed)
    && (ph.Preparing? || (!ph.Idle? && Acts(ph, ph.g)) ==> ph.g in s.journals && Owner(s.journals[ph.g]) == p)
    && (Checked(ph) && ph.g in s.journals && s.journals[ph.g].holder == ph.holder ==> OwnerGone(s, ph.g))
    && ((ph.SawName? || ph.Ready?) && ph.holder.Claimant? ==> ph.holder.uuid in s.uuids)
    && (ph.Publishing? ==> s.gate == Some(ph.g) && ph.g !in s.committed && s.journals[ph.g].holder.Writer?)
    && (ph.Undoing? || ph.Confirming? ==> s.gate == Some(ph.g) || ph.g in s.orphans)
    && (ph.Undoing? && s.gate == Some(ph.g) ==> ph.g !in s.committed)
    && (ph.Releasing? ==> s.gate != Some(ph.g) && ph.g !in s.orphans)
  }

  ghost predicate Inv(s: State) {
    && (forall p :: p in s.procs ==> ProcInv(s, p))
    && (forall g :: g in s.journals ==> g in s.used)
    && s.linked <= s.used && s.markers <= s.committed <= s.linked
    && (forall g :: g in s.journals && s.journals[g].holder.Claimant? ==>
         s.journals[g].holder.uuid in s.uuids && g in s.linked)
    && (s.gate.Some? ==> s.gate.value in s.linked && s.gate.value in s.journals)
    && (s.gate.Some? ==> (s.gate.value in s.markers <==> s.gate.value in s.committed))
    && (forall g :: g in s.orphans ==> g in s.linked && s.gate != Some(g))
    && (forall g :: g in s.linked && g in s.journals && s.gate != Some(g) && g !in s.orphans ==>
          Owner(s.journals[g]) in s.procs && s.procs[Owner(s.journals[g])].Releasing? &&
            s.procs[Owner(s.journals[g])].g == g)
  }

  // A process that throws, or is refused, touches nothing.
  lemma GivingUpKeepsInv(s: State, p: Pid)
    requires Inv(s) && p in s.procs && !s.procs[p].Releasing?
    ensures Inv(To(s, p, Idle))
  {
  }

  lemma SpawnKeepsInv(s: State, a: Action)
    requires Inv(s) && a.Spawn?
    ensures Inv(Apply(s, a))
  {
  }

  lemma DieKeepsInv(s: State, a: Action)
    requires Inv(s) && a.Die?
    ensures Inv(Apply(s, a))
  {
  }

  lemma ThrowKeepsInv(s: State, a: Action)
    requires Inv(s) && a.Throw?
    ensures Inv(Apply(s, a))
  {
    if a.p in s.procs && !s.procs[a.p].Releasing? { GivingUpKeepsInv(s, a.p); }
  }

  lemma PrepareKeepsInv(s: State, a: Action)
    requires Inv(s) && a.Prepare?
    ensures Inv(Apply(s, a))
  {
  }

  lemma LinkGateKeepsInv(s: State, a: Action)
    requires Inv(s) && a.LinkGate?
    ensures Inv(Apply(s, a))
  {
  }

  lemma CommitKeepsInv(s: State, a: Action)
    requires Inv(s) && a.Commit?
    ensures Inv(Apply(s, a))
  {
  }

  lemma AbandonKeepsInv(s: State, a: Action)
    requires Inv(s) && a.Abandon?
    ensures Inv(Apply(s, a))
  {
  }

  lemma ReleaseKeepsInv(s: State, a: Action)
    requires Inv(s) && a.Release?
    ensures Inv(Apply(s, a))
  {
    if a.p in s.procs && Apply(s, a) == To(s, a.p, Idle) { GivingUpKeepsInv(s, a.p); }
  }

  lemma DropMarkerKeepsInv(s: State, a: Action)
    requires Inv(s) && a.DropMarker?
    ensures Inv(Apply(s, a))
  {
  }

  lemma DropJournalKeepsInv(s: State, a: Action)
    requires Inv(s) && a.DropJournal?
    ensures Inv(Apply(s, a))
  {
  }

  lemma ReadGateKeepsInv(s: State, a: Action)
    requires Inv(s) && a.ReadGate?
    ensures Inv(Apply(s, a))
  {
  }

  lemma ReadNameKeepsInv(s: State, a: Action)
    requires Inv(s) && a.ReadName?
    ensures Inv(Apply(s, a))
  {
    if a.p in s.procs && Apply(s, a) == To(s, a.p, Idle) { GivingUpKeepsInv(s, a.p); }
  }

  lemma CheckWriterKeepsInv(s: State, a: Action)
    requires Inv(s) && a.CheckWriter?
    ensures Inv(Apply(s, a))
  {
    if a.p in s.procs && Apply(s, a) == To(s, a.p, Idle) { GivingUpKeepsInv(s, a.p); }
  }

  lemma ClaimKeepsInv(s: State, a: Action)
    requires Inv(s) && a.Claim?
    ensures Inv(Apply(s, a))
  {
    if a.p in s.procs && Apply(s, a) == To(s, a.p, Idle) { GivingUpKeepsInv(s, a.p); }
  }

  lemma StepKeepsInv(s: State, a: Action)
    requires Inv(s)
    ensures Inv(Apply(s, a))
  {
    match a
    case Spawn(_) => SpawnKeepsInv(s, a);
    case Die(_) => DieKeepsInv(s, a);
    case Throw(_) => ThrowKeepsInv(s, a);
    case Prepare(_, _) => PrepareKeepsInv(s, a);
    case LinkGate(_) => LinkGateKeepsInv(s, a);
    case Commit(_) => CommitKeepsInv(s, a);
    case Abandon(_) => AbandonKeepsInv(s, a);
    case Release(_) => ReleaseKeepsInv(s, a);
    case DropMarker(_) => DropMarkerKeepsInv(s, a);
    case DropJournal(_) => DropJournalKeepsInv(s, a);
    case ReadGate(_) => ReadGateKeepsInv(s, a);
    case ReadName(_) => ReadNameKeepsInv(s, a);
    case CheckWriter(_) => CheckWriterKeepsInv(s, a);
    case Claim(_, _) => ClaimKeepsInv(s, a);
  }

  lemma {:induction false} RunKeepsInv(actions: seq<Action>)
    ensures Inv(Run(actions))
  {
    if actions != [] {
      RunKeepsInv(actions[..|actions| - 1]);
      StepKeepsInv(Run(actions[..|actions| - 1]), actions[|actions| - 1]);
    }
  }

  // However promoters and recoverers interleave, throw and die, at most one live process acts for a
  // generation, and it is the one its journal names.
  lemma SingleOwnerPerGeneration(actions: seq<Action>, g: Generation, p: Pid, q: Pid)
    requires var s := Run(actions); p in s.procs && q in s.procs && Acts(s.procs[p], g) && Acts(s.procs[q], g)
    ensures p == q && g in Run(actions).journals && p == Owner(Run(actions).journals[g])
  {
    RunKeepsInv(actions);
    assert ProcInv(Run(actions), p) && ProcInv(Run(actions), q);
  }

  // A claim that goes through takes the journal of the generation that was read at the gate, from
  // an owner that no longer acts; every other generation's journal stays as it was.
  lemma ClaimTakesOnlyWhatWasRead(actions: seq<Action>, p: Pid, uuid: nat)
    requires var s := Run(actions); p in s.procs && Claimable(s, s.procs[p]) && uuid !in s.uuids
    ensures var s := Run(actions); var t := Apply(s, Claim(p, uuid)); var g := s.procs[p].g;
      && Acts(t.procs[p], g) && t.journals[g].holder == Claimant(p, uuid)
      && (forall h :: h != g ==>
           (h in s.journals <==> h in t.journals) && (h in s.journals ==> t.journals[h] == s.journals[h]))
      && (forall q :: q in s.procs ==> !Acts(s.procs[q], g))
  {
    RunKeepsInv(actions);
    var s := Run(actions);
    assert ProcInv(s, p);
    forall q | q in s.procs ensures !Acts(s.procs[q], s.procs[p].g) { assert ProcInv(s, q); }
  }

  // The claimant holds the gate exactly when no earlier owner stopped between releasing the gate
  // and removing the journal.
  lemma ClaimHoldsTheGateUnlessOrphaned(actions: seq<Action>, p: Pid)
    requires var s := Run(actions); p in s.procs && Claimable(s, s.procs[p])
    ensures var s := Run(actions); s.gate == Some(s.procs[p].g) <==> s.procs[p].g !in s.orphans
  {
    RunKeepsInv(actions);
    assert ProcInv(Run(actions), p);
  }

  // Outputs are changed only behind the gate of one's own generation, and a committed promotion is
  // never undone, except by a process that acts for an orphaned generation.
  lemma ActorsHoldTheGateUnlessOrphaned(actions: seq<Action>, p: Pid)
    requires var s := Run(actions);
      p in s.procs && (s.procs[p].Publishing? || s.procs[p].Undoing? || s.procs[p].Confirming?)
    ensures var s := Run(actions); s.procs[p].g !in s.orphans ==>
      s.gate == Some(s.procs[p].g) && (s.procs[p].Undoing? ==> s.procs[p].g !in s.committed)
  {
    RunKeepsInv(actions);
    assert ProcInv(Run(actions), p);
  }

  // Hence two live processes change outputs at the same time only if one acts for an orphan.
  lemma NoTwoWritersWithoutAnOrphan(actions: seq<Action>, p: Pid, q: Pid)
    requires var s := Run(actions); s.orphans == {} && p in s.procs && q in s.procs
    requires var s := Run(actions); s.procs[p].Publishing? || s.procs[p].Undoing?
    requires var s := Run(actions); s.procs[q].Publishing? || s.procs[q].Undoing?
    ensures p == q
  {
    ActorsHoldTheGateUnlessOrphaned(actions, p);
    ActorsHoldTheGateUnlessOrphaned(actions, q);
    SingleOwnerPerGeneration(actions, Run(actions).procs[p].g, p, q);
  }

  // A promoter has taken the gate and committed.
  lemma CommittedPromoter(g: Generation) returns (actions: seq<Action>)
    ensures Run(actions) ==
            State(map[2 := Confirming(g)], Some(g), map[g := JournalFile(Writer, 2)], {g}, {g}, {g}, {g}, {}, {})
  {
    actions := After([], Spawn(2));
    actions := After(actions, Prepare(2, g));
    actions := After(actions, LinkGate(2));
    actions := After(actions, Commit(2));
  }

  // A recoverer reads the gate while that promoter is about to release it.
  lemma ReaderBesideALivePromoter(g: Generation) returns (actions: seq<Action>)
    ensures Run(actions) == State(map[2 := Confirming(g), 3 := SawName(g, Writer)], Some(g),
          map[g := JournalFile(Writer, 2)],
                                  {g}, {g}, {g}, {g}, {}, {})
  {
    actions := CommittedPromoter(g);
    actions := After(actions, Spawn(3));
    actions := After(actions, ReadGate(3));
    actions := After(actions, ReadName(3));
  }

  // The exception happens: the promoter dies after removing the commit marker and before removing
  // the journal. The recoverer then undoes a committed promotion with the gate open.
  lemma OrphanedCommitIsUndone(g: Generation) returns (actions: seq<Action>)
    ensures var s := Run(actions); s.gate == None && g in s.committed && s.procs == map[3 := Undoing(g)]
  {
    actions := ReaderBesideALivePromoter(g);
    actions := After(actions, Action.Release(2));
    actions := After(actions, DropMarker(2));
    actions := After(actions, Die(2));
    actions := After(actions, CheckWriter(3));
    actions := After(actions, Claim(3, 0));
  }

  lemma After(actions: seq<Action>, a: Action) returns (longer: seq<Action>)
    ensures longer == actions + [a] && Run(longer) == Apply(Run(actions), a)
  {
    longer := actions + [a];
    assert longer[..|actions|] == actions;
  }
}
