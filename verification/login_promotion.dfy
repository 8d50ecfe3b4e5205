/**
 Replacing all login outputs as one unit: the journal, the gate, the commit marker and recovery.
*/
module LoginPromotion {
  import opened Faults
  import opened LoginDisk
  import opened LoginRollback

  type Pid = nat
  // A random UUID.
  type Generation = nat

  datatype Journal = Journal(generation: Generation, pid: Pid, entries: seq<Entry>)

  // `journal.<generation>.json` while its writer owns it, `recovery.<pid>.<uuid>.json` once claimed.
  datatype Holder = Writer | Claimant(pid: Pid, uuid: nat)

  // A prepared directory: the journal under its current name, `commit.next` and `committed`.
  datatype Prepared = Prepared(journal: Option<(Holder, Journal)>, next: bool, committed: bool)

  // How the gate was released: the journal, whether it had committed, and what was last known of the outputs.
  datatype Release = Release(entries: seq<Entry>, committed: bool, known: seq<Option<Bytes>>)

  // Every output was last seen as the journal wants it: new after a commit, the original otherwise.
  ghost predicate Proper(r: Release) {
    && |r.known| == |r.entries|
    && forall i :: 0 <= i < |r.entries| ==>
         Hash(r.known[i]) == if r.committed then Some(r.entries[i].after) else r.entries[i].before
  }

  // The bytes equal what this release did away with: the original of a promotion that committed, or the
  // new bytes of one that was undone.
  ghost predicate Excuses(r: Release, i: nat, v: Bytes) {
    i < |r.entries| && if r.committed then r.entries[i].before == Some(Sha256(v)) else r.entries[i].after == Sha256(v)
  }

  ghost predicate Excused(releases: seq<Release>, i: nat, v: Bytes) {
    exists k :: 0 <= k < |releases| && Excuses(releases[k], i, v)
  }

  function Both(a: seq<set<Bytes>>, b: seq<set<Bytes>>): seq<set<Bytes>>
    requires |a| == |b|
  {
    seq(|a|, i requires 0 <= i < |a| => a[i] + b[i])
  }

  lemma StillExcused(releases: seq<Release>, r: Release, before: seq<set<Bytes>>, gone: seq<set<Bytes>>)
    requires |before| == |gone|
    requires forall i, v :: 0 <= i < |before| && v in before[i] ==> Excused(releases, i, v)
    requires forall i, v :: 0 <= i < |gone| && v in gone[i] ==> Excuses(r, i, v)
    ensures forall i, v :: 0 <= i < |before| && v in Both(before, gone)[i] ==> Excused(releases + [r], i, v)
  {
    forall i, v | 0 <= i < |before| && v in Both(before, gone)[i] ensures Excused(releases + [r], i, v) {
      if v in before[i] {
        var k :| 0 <= k < |releases| && Excuses(releases[k], i, v);
        assert Excuses((releases + [r])[k], i, v);
      } else {
        assert Excuses((releases + [r])[|releases|], i, v);
      }
    }
  }

  // One release more.
  ghost predicate Released(before: seq<Release>, after: seq<Release>, entries: seq<Entry>, committed: bool) {
    && |after| == |before| + 1 && before <= after
    && after[|before|].entries == entries && after[|before|].committed == committed
  }

  // Whatever the outside program wrote and did not overwrite is at the output.
  ghost predicate InPlace(c: Output)
    reads c
  {
    forall v :: v in c.claims ==> c.current == Some(v)
  }

  class Directory {
    const env: Environment
    // The declared outputs.
    const outputs: seq<Output>
    // The target of the gate's symbolic link.
    var gate: Option<Generation>
    var prepared: map<Generation, Prepared>
    var retired: set<Generation>
    // The contents a reader of the outputs is promised. Only the commit marker changes them.
    ghost var logical: seq<Option<Bytes>>
    // Every release of the gate, and the outside program's bytes that were gone by then.
    ghost var releases: seq<Release>
    ghost var forgone: seq<set<Bytes>>

    constructor (env: Environment, outputs: seq<Output>)
      requires forall i, j :: 0 <= i < j < |outputs| ==> outputs[i] != outputs[j]
      requires forall i :: 0 <= i < |outputs| ==>
        outputs[i].env == env && NoCopies(outputs[i]) && InPlace(outputs[i])
      ensures this.env == env && this.outputs == outputs && Inv() && gate == None && releases == []
      ensures forall i :: 0 <= i < |outputs| ==> logical[i] == outputs[i].current
    {
      this.env, this.outputs := env, outputs;
      gate, prepared, retired := None, map[], {};
      logical := seq(|outputs|, i requires 0 <= i < |outputs| reads outputs => outputs[i].current);
      releases, forgone := [], seq(|outputs|, _ => {});
    }

    ghost predicate Valid()
      reads this
    {
      && (forall i, j :: 0 <= i < j < |outputs| ==> outputs[i] != outputs[j])
      && (forall i :: 0 <= i < |outputs| ==> outputs[i].env == env)
      && |logical| == |outputs|
    }

    // Each time the gate was released, every output had last been seen as the journal wants it. Of the
    // outside program's bytes only those are gone that equal the new bytes of a promotion that was
    // undone or the old bytes of one that committed.
    ghost predicate Ledger()
      reads this
    {
      && |forgone| == |outputs|
      && (forall r :: r in releases ==> Proper(r))
      && (forall i, v :: 0 <= i < |forgone| && v in forgone[i] ==> Excused(releases, i, v))
    }

    // The gate is shut on a promotion that has not committed.
    ghost predicate Pending(entries: seq<Entry>)
      reads this, outputs
    {
      && Valid() && |entries| == |outputs|
      && forall i :: 0 <= i < |outputs| ==> EntryPending(outputs[i], entries[i], logical[i])
    }

    // The entries from `i` on were undone and nothing of them is left.
    ghost predicate UnwoundFrom(entries: seq<Entry>, i: nat)
      reads this, outputs
    {
      && Valid() && |entries| == |outputs|
      && forall k :: i <= k < |outputs| ==> EntryUnwound(outputs[k], entries[k], logical[k])
    }

    // The commit marker is in place.
    ghost predicate Sealed(entries: seq<Entry>)
      reads this, outputs
    {
      && Valid() && |entries| == |outputs|
      && forall i :: 0 <= i < |outputs| ==> EntrySealed(outputs[i], entries[i], logical[i])
    }

    // Nothing but staged copies has been written.
    ghost predicate Quiet(entries: seq<Entry>)
      reads this, outputs
    {
      && Valid() && |entries| == |outputs|
      && forall i :: 0 <= i < |outputs| ==> EntryQuiet(outputs[i], entries[i], logical[i])
    }

    // No rollback of this promotion has started.
    ghost predicate Unrolled(entries: seq<Entry>)
      reads this, outputs
    {
      && Pending(entries)
      && forall i :: 0 <= i < |outputs| ==> outputs[i].displaced.None?
    }

    // Every output holds its new bytes, and every backup was checked.
    ghost predicate Published(entries: seq<Entry>)
      reads this, outputs
    {
      && Valid() && |entries| == |outputs|
      && forall i :: 0 <= i < |outputs| ==> EntryPublished(outputs[i], entries[i], logical[i])
    }

    // What is on the disk of every output.
    ghost function Snapshot(): (s: seq<Copies>)
      reads outputs
      ensures |s| == |outputs| && forall i :: 0 <= i < |outputs| ==> s[i] == CopiesOf(outputs[i])
    {
      seq(|outputs|, i requires 0 <= i < |outputs| reads outputs => CopiesOf(outputs[i]))
    }

    // The loop of `cleanJournal` over the private copies.
    method Sweep(entries: seq<Entry>, ghost committed: bool) returns (o: Outcome)
      requires if committed then Sealed(entries) else UnwoundFrom(entries, 0)
      modifies outputs`staged, outputs`backup, outputs`displaced, env`faults
      ensures if committed then Sealed(entries) else UnwoundFrom(entries, 0)
      ensures o.Done? ==> forall i :: 0 <= i < |outputs| ==> NoCopies(outputs[i])
      ensures env.faults >= old(env.faults)
      ensures env.faults == old(env.faults) ==> o.Done?
    {
      for i := 0 to |entries|
        invariant if committed then Sealed(entries) else UnwoundFrom(entries, 0)
        invariant forall k :: 0 <= k < i ==> NoCopies(outputs[k])
        invariant env.faults >= old(env.faults)
      {
        :- SweepEntry(outputs[i], entries[i], committed, logical[i]);
      }
      return Done;
    }

    // `rollback`: in reverse order, carrying on after a conflict so that whatever can be put back is.
    method Rollback(entries: seq<Entry>) returns (o: Outcome)
      requires Pending(entries)
      modifies outputs, env`faults
      ensures Pending(entries)
      ensures o.Done? ==> UnwoundFrom(entries, 0)
      ensures env.faults >= old(env.faults)
      ensures !env.hostile && env.faults == old(env.faults) ==>
        !o.Crashed? && (o.Done? <==> UnwindsFrom(entries, old(Snapshot()), 0))
    {
      ghost var start := Snapshot();
      var conflict := false;
      var i := |entries|;
      while i > 0
        invariant 0 <= i <= |entries|
        invariant Pending(entries)
        invariant forall k :: 0 <= k < i ==> CopiesOf(outputs[k]) == start[k]
        invariant !conflict ==> UnwoundFrom(entries, i)
        invariant env.faults >= old(env.faults)
        invariant !env.hostile && env.faults == old(env.faults) ==> (!conflict <==> UnwindsFrom(entries, start, i))
      {
        i := i - 1;
        o, conflict := UnwindAt(entries, i, conflict);
        if o.Crashed? { return Crashed; }
      }
      o := if conflict then Failed else Done;
    }

    // One round of that loop: a refused operation counts as a conflict.
    method UnwindAt(entries: seq<Entry>, i: nat, conflict: bool) returns (o: Outcome, bad: bool)
      requires Pending(entries) && i < |outputs|
      requires !conflict ==> UnwoundFrom(entries, i + 1)
      modifies outputs[i], env`faults
      ensures Pending(entries)
      ensures !o.Failed?
      ensures !bad ==> o.Done? && UnwoundFrom(entries, i)
      ensures env.faults >= old(env.faults)
      ensures !env.hostile && env.faults == old(env.faults) ==>
        o.Done? && (!bad <==> !conflict && Unwinds(entries[i], old(CopiesOf(outputs[i]))))
    {
      o, bad := UnwindEntry(outputs[i], entries[i], conflict, logical[i]);
      if !o.Done? { bad := true; }
      if o.Failed? { o := Done; }
    }

    // The `try` block of `promoteLoginOutputs`: stage everything, publish entry by entry, read back.
    method Publish(entries: seq<Entry>, before: seq<Option<Bytes>>) returns (o: Outcome)
      requires Quiet(entries) && |before| == |entries|
      requires forall i :: 0 <= i < |outputs| ==> Hash(before[i]) == entries[i].before && outputs[i].staged.None?
      modifies outputs, env`faults
      ensures Unrolled(entries)
      ensures o.Done? ==> Published(entries) && SeenNew(entries, |outputs|)
      ensures !env.hostile && o.Done? ==> AllFresh(entries, logical)
      ensures env.faults >= old(env.faults)
      ensures !env.hostile && env.faults == old(env.faults) ==> !o.Crashed? && (o.Done? <==> AllFresh(entries, logical))
    {
      o := StageAll(entries);
      if !o.Done? { return; }
      :- PublishAll(entries, before);
      :- ReadBack(entries);
      return Done;
    }

    method StageAll(entries: seq<Entry>) returns (o: Outcome)
      requires Quiet(entries)
      requires forall i :: 0 <= i < |outputs| ==> outputs[i].staged.None?
      modifies outputs, env`faults
      ensures Quiet(entries)
      ensures o.Done? ==> forall i :: 0 <= i < |outputs| ==> outputs[i].staged == New(entries[i])
      ensures env.faults >= old(env.faults)
      ensures env.faults == old(env.faults) ==> o.Done?
    {
      for i := 0 to |entries|
        invariant Quiet(entries)
        invariant forall k :: 0 <= k < i ==> outputs[k].staged == New(entries[k])
        invariant forall k :: i <= k < |outputs| ==> outputs[k].staged.None?
        invariant env.faults >= old(env.faults)
      {
        :- outputs[i].Stage(entries[i].after.bytes);
      }
      return Done;
    }

    method PublishAll(entries: seq<Entry>, before: seq<Option<Bytes>>) returns (o: Outcome)
      requires Quiet(entries) && |before| == |entries|
      requires forall i :: 0 <= i < |outputs| ==>
        Hash(before[i]) == entries[i].before && outputs[i].staged == New(entries[i])
      modifies outputs, env`faults
      ensures Unrolled(entries)
      ensures o.Done? ==> forall i :: 0 <= i < |outputs| ==> EntryPublished(outputs[i], entries[i], logical[i])
      ensures env.faults >= old(env.faults)
      ensures !env.hostile && env.faults == old(env.faults) ==> !o.Crashed? && (o.Done? <==> AllFresh(entries, logical))
    {
      for i := 0 to |entries|
        invariant Midway(entries, i)
        invariant env.faults >= old(env.faults)
      {
        :- PublishAt(entries, before, i);
      }
      MidwayIsPending(entries, |entries|);
      return Done;
    }

    // The first entries are published; of the others only staged copies were written.
    ghost predicate Midway(entries: seq<Entry>, i: nat)
      reads this, outputs
    {
      && Valid() && |entries| == |outputs|
      && (forall k :: 0 <= k < i && k < |outputs| ==> EntryPublished(outputs[k], entries[k], logical[k]))
      && (forall k :: i <= k < |outputs| ==>
           EntryQuiet(outputs[k], entries[k], logical[k]) && outputs[k].staged == New(entries[k]))
    }

    lemma MidwayIsPending(entries: seq<Entry>, i: nat)
      requires Midway(entries, i)
      ensures Unrolled(entries)
    {
    }

    method PublishAt(entries: seq<Entry>, before: seq<Option<Bytes>>, i: nat) returns (o: Outcome)
      requires Midway(entries, i) && i < |outputs| == |before| && Hash(before[i]) == entries[i].before
      modifies outputs[i], env`faults
      ensures Unrolled(entries)
      ensures o.Done? ==> Midway(entries, i + 1)
      ensures env.faults >= old(env.faults)
      ensures !env.hostile && env.faults == old(env.faults) ==>
        !o.Crashed? && (o.Done? <==> Fresh(entries[i], logical[i]))
    {
      MidwayIsPending(entries, i);
      o := PublishEntry(outputs[i], entries[i], before[i], logical[i]);
    }

    // The first outputs were last seen with their new bytes.
    ghost predicate SeenNew(entries: seq<Entry>, n: nat)
      requires n <= |outputs| == |entries|
      reads outputs
    {
      forall i :: 0 <= i < n ==> outputs[i].known == New(entries[i])
    }

    method ReadBack(entries: seq<Entry>) returns (o: Outcome)
      requires Valid() && |entries| == |outputs|
      requires forall i :: 0 <= i < |outputs| ==> EntryPublished(outputs[i], entries[i], logical[i])
      modifies outputs, env`faults
      ensures Valid()
      ensures forall i :: 0 <= i < |outputs| ==> EntryPublished(outputs[i], entries[i], logical[i])
      ensures o.Done? ==> SeenNew(entries, |outputs|)
      ensures env.faults >= old(env.faults)
      ensures !env.hostile && env.faults == old(env.faults) ==> o.Done?
    {
      for i := 0 to |entries|
        invariant forall k :: 0 <= k < |outputs| ==> EntryPublished(outputs[k], entries[k], logical[k])
        invariant SeenNew(entries, i)
        invariant env.faults >= old(env.faults)
      {
        var read :- Look(outputs[i], None);
        if read != New(entries[i]) { return Failed; }
      }
      return Done;
    }

    // Taking the gate: a prepared directory with the journal is published by an exclusive link.
    method Acquire(j: Journal) returns (o: Outcome)
      modifies this`gate, this`prepared, env`faults
      ensures gate != old(gate) ==> old(gate) == None && gate == Some(j.generation)
      ensures gate != old(gate) ==>
        j.generation in prepared && prepared[j.generation] == Prepared(Some((Writer, j)), false, false)
      ensures prepared - {j.generation} == old(prepared) - {j.generation}
      ensures o.Done? ==> gate != old(gate)
      ensures o.Failed? ==> gate == old(gate)
      ensures prepared.Keys <= old(prepared.Keys) + {j.generation}
      ensures env.faults >= old(env.faults)
      ensures env.faults == old(env.faults) ==> !o.Crashed? && (o.Done? <==> old(gate) == None)
    {
      var lands;
      o, lands := env.Decide();
      if lands { prepared := prepared[j.generation := Prepared(None, false, false)]; }
      if !o.Done? { return; }
      o, lands := env.Decide();
      if lands { prepared := prepared[j.generation := Prepared(Some((Writer, j)), false, false)]; }
      if o.Done? {
        if gate.Some? {
          o := Failed;
        } else {
          o, lands := env.Decide();
          if lands { gate := Some(j.generation); }
        }
      }
      if o.Failed? {
        o, lands := env.Decide();
        if lands { prepared := prepared[j.generation := Prepared(None, false, false)]; }
        if !o.Done? { return; }
        o, lands := env.Decide();
        if lands { prepared := prepared - {j.generation}; }
        if o.Done? { o := Failed; }
      }
    }

    // The promotion is settled as its journal wants it, and was seen to be so.
    ghost predicate Settled(entries: seq<Entry>, committed: bool)
      reads this, outputs
    {
      if committed then Sealed(entries) && SeenNew(entries, |outputs|) else UnwoundFrom(entries, 0)
    }

    // What is last known of the outputs, and what the outside program wrote that is at none of them.
    ghost function Known(): (r: seq<Option<Bytes>>)
      reads outputs
      ensures |r| == |outputs| && forall i :: 0 <= i < |r| ==> r[i] == outputs[i].known
    {
      seq(|outputs|, i requires 0 <= i < |outputs| reads outputs => outputs[i].known)
    }

    ghost function Gone(): (r: seq<set<Bytes>>)
      reads outputs
      ensures |r| == |outputs|
      ensures forall i, v :: 0 <= i < |r| ==>
        (v in r[i] <==> v in outputs[i].claims && outputs[i].current != Some(v))
    {
      seq(|outputs|, i requires 0 <= i < |outputs| reads outputs =>
        set v | v in outputs[i].claims && outputs[i].current != Some(v))
    }

    // A settled promotion is released properly, and excuses whatever is gone.
    lemma SettledIsProper(entries: seq<Entry>, committed: bool)
      requires Settled(entries, committed) && forall i :: 0 <= i < |outputs| ==> NoCopies(outputs[i])
      ensures Proper(Release(entries, committed, Known()))
      ensures forall i, v :: 0 <= i < |outputs| && v in Gone()[i] ==>
        Excuses(Release(entries, committed, Known()), i, v)
    {
      forall i, v | 0 <= i < |outputs| && v in Gone()[i]
        ensures Excuses(Release(entries, committed, Known()), i, v)
      {
        assert KeptBut(outputs[i], if committed then entries[i].before else Some(entries[i].after));
      }
    }

    // Only what is at an output counts from now on.
    ghost method Drop(entries: seq<Entry>, committed: bool)
      requires Settled(entries, committed)
      modifies outputs`claims
      ensures Settled(entries, committed) && forall i :: 0 <= i < |outputs| ==> InPlace(outputs[i])
    {
      forall i | 0 <= i < |outputs| {
        outputs[i].claims := set v | v in outputs[i].claims && outputs[i].current == Some(v);
      }
    }

    // The books are closed as the gate is released.
    ghost method Close(entries: seq<Entry>, committed: bool)
      requires Settled(entries, committed) && Ledger() && forall i :: 0 <= i < |outputs| ==> NoCopies(outputs[i])
      modifies this`releases, this`forgone, outputs`claims
      ensures Settled(entries, committed) && Ledger()
      ensures forall i :: 0 <= i < |outputs| ==> InPlace(outputs[i])
      ensures Released(old(releases), releases, entries, committed)
    {
      var r := Release(entries, committed, Known());
      SettledIsProper(entries, committed);
      StillExcused(releases, r, forgone, Gone());
      releases, forgone := releases + [r], Both(forgone, Gone());
      Drop(entries, committed);
    }

    // The private copies go first, then the gate is released.
    method ReleaseGate(entries: seq<Entry>, ghost committed: bool) returns (o: Outcome)
      requires gate.Some? && Ledger() && Settled(entries, committed)
      modifies this`gate, this`retired, this`releases, this`forgone, outputs, env`faults
      ensures Settled(entries, committed) && Ledger()
      ensures gate == None || (gate == old(gate) && releases == old(releases))
      ensures gate == None ==> forall i :: 0 <= i < |outputs| ==> NoCopies(outputs[i]) && InPlace(outputs[i])
      ensures gate == None ==> Released(old(releases), releases, entries, committed)
      ensures o.Done? ==> gate == None
      ensures env.faults >= old(env.faults)
      ensures env.faults == old(env.faults) ==> o.Done?
    {
      o := Sweep(entries, committed);
      if !o.Done? { return; }
      var lands;
      o, lands := env.Decide();
      if lands {
        Close(entries, committed);
        retired, gate := retired + {gate.value}, None;
      }
    }

    // `cleanJournal`: the private copies go first, then the gate is released, then the journal.
    method CleanJournal(j: Journal) returns (o: Outcome)
      requires gate == Some(j.generation) && j.generation in prepared && Ledger()
      requires Settled(j.entries, prepared[j.generation].committed)
      modifies this`gate, this`prepared, this`retired, this`releases, this`forgone, outputs, env`faults
      ensures Settled(j.entries, old(prepared[j.generation].committed)) && Ledger()
      ensures gate == None || (gate == old(gate) && prepared == old(prepared) && releases == old(releases))
      ensures gate == None ==> forall i :: 0 <= i < |outputs| ==> NoCopies(outputs[i]) && InPlace(outputs[i])
      ensures gate == None ==> Released(old(releases), releases, j.entries, old(prepared[j.generation].committed))
      ensures o.Done? ==> gate == None
      ensures prepared.Keys <= old(prepared.Keys)
      ensures env.faults >= old(env.faults)
      ensures env.faults == old(env.faults) ==> o.Done?
    {
      var lands;
      o, lands := env.Decide();
      if !o.Done? { return; }
      :- ReleaseGate(j.entries, prepared[j.generation].committed);
      o := Dispose(j.generation);
    }

    // Emptying the directory of a generation whose gate was released.
    method Dispose(g: Generation) returns (o: Outcome)
      requires g in prepared
      modifies this`prepared, this`retired, env`faults
      ensures prepared - {g} == old(prepared) - {g}
      ensures o.Done? ==> g !in prepared && g !in retired
      ensures prepared.Keys <= old(prepared.Keys)
      ensures env.faults >= old(env.faults)
      ensures env.faults == old(env.faults) ==> o.Done?
    {
      var lands;
      o, lands := env.Decide();
      if lands { prepared := prepared[g := prepared[g].(committed := false)]; }
      if !o.Done? { return; }
      o, lands := env.Decide();
      if lands { prepared := prepared[g := prepared[g].(next := false)]; }
      if !o.Done? { return; }
      o, lands := env.Decide();
      if lands { prepared := prepared[g := prepared[g].(journal := None)]; }
      if !o.Done? { return; }
      o, lands := env.Decide();
      if lands { prepared := prepared - {g}; }
      if !o.Done? { return; }
      o, lands := env.Decide();
      if lands { retired := retired - {g}; }
    }

    // The durable commit marker: `commit.next` is written, then linked as `committed`.
    method Commit(j: Journal) returns (o: Outcome)
      requires gate == Some(j.generation) && j.generation in prepared
      requires prepared[j.generation] == Prepared(Some((Writer, j)), false, false)
      requires Published(j.entries) && Pending(j.entries)
      modifies this`prepared, this`logical, env`faults
      ensures j.generation in prepared && prepared[j.generation].journal == Some((Writer, j))
      ensures if prepared[j.generation].committed then Sealed(j.entries) && logical == News(j.entries)
              else Pending(j.entries) && logical == old(logical)
      ensures o.Done? ==> prepared[j.generation].committed
      ensures prepared.Keys <= old(prepared.Keys)
      ensures env.faults >= old(env.faults)
      ensures env.faults == old(env.faults) ==> o.Done?
    {
      var g := j.generation;
      var lands;
      o, lands := env.Decide();
      if lands { prepared := prepared[g := prepared[g].(next := true)]; }
      if !o.Done? { return; }
      o, lands := env.Decide();
      if lands {
        prepared := prepared[g := prepared[g].(committed := true)];
        logical := News(j.entries);
      }
      if !o.Done? { return; }
      o, lands := env.Decide();
      if lands { prepared := prepared[g := prepared[g].(next := false)]; }
    }

    // What holds between any two calls, however the earlier ones ended. In particular an open gate
    // shows the promised contents, all of them, and no private copies.
    ghost predicate Inv()
      reads this, outputs
    {
      && Valid() && Ledger()
      && match gate
         case None => forall i :: 0 <= i < |outputs| ==> Untouched(outputs[i], logical[i])
         case Some(g) =>
           && g in prepared && prepared[g].journal.Some?
           && var j := prepared[g].journal.value.1;
           && j.generation == g
           && if prepared[g].committed then Sealed(j.entries)
              else Pending(j.entries) && (!env.hostile ==> NoneLost(j.entries, logical))
    }

    // The journal behind a shut gate recorded what the outputs held as the gate was taken.
    ghost predicate Undisputed()
      reads this
    {
      gate.Some? && gate.value in prepared && prepared[gate.value].journal.Some? && !prepared[gate.value].committed ==>
        var entries := prepared[gate.value].journal.value.1.entries;
        |entries| == |logical| && AllFresh(entries, logical)
    }

    // The gate is shut on this journal, which has not committed.
    ghost predicate Open(j: Journal)
      reads this, outputs
    {
      && gate == Some(j.generation) && j.generation in prepared
      && prepared[j.generation].journal.Some? && prepared[j.generation].journal.value.1 == j
      && !prepared[j.generation].committed
      && Pending(j.entries)
    }

    // Rolling back and releasing the gate. Whoever else writes, a conflict leaves the gate shut: it is
    // released only once every original was seen back in its place.
    method Undo(j: Journal) returns (o: Outcome)
      requires Open(j) && Ledger()
      modifies this`gate, this`prepared, this`retired, this`releases, this`forgone, outputs, env`faults
      ensures Ledger()
      ensures gate == old(gate) ==> Open(j) && prepared == old(prepared) && releases == old(releases)
      ensures gate != old(gate) ==> gate == None && UnwoundFrom(j.entries, 0)
      ensures gate != old(gate) ==> Released(old(releases), releases, j.entries, false)
      ensures gate != old(gate) ==> forall i :: 0 <= i < |outputs| ==> InPlace(outputs[i])
      ensures o.Done? ==> gate == None
      ensures prepared.Keys <= old(prepared.Keys)
      ensures env.faults >= old(env.faults)
      ensures !env.hostile && env.faults == old(env.faults) ==>
        (o.Done? <==> gate == None) && (o.Done? <==> UnwindsFrom(j.entries, old(Snapshot()), 0))
    {
      o := Rollback(j.entries);
      if !o.Done? { return; }
      o := CleanJournal(j);
    }

    // Committing and releasing the gate.
    method Finish(j: Journal) returns (o: Outcome)
      requires Open(j) && Ledger() && prepared[j.generation] == Prepared(Some((Writer, j)), false, false)
      requires Published(j.entries) && SeenNew(j.entries, |outputs|)
      modifies this, outputs, env`faults
      ensures env.hostile || NoneLost(j.entries, old(logical)) ==> Inv()
      ensures Outcomes(j, old(logical), old(releases))
      ensures o.Done? ==> gate == None && logical == News(j.entries)
      ensures o.Done? ==> Released(old(releases), releases, j.entries, true)
      ensures prepared.Keys <= old(prepared.Keys)
      ensures env.faults >= old(env.faults)
      ensures env.faults == old(env.faults) ==> o.Done?
    {
      o := Commit(j);
      if !o.Done? { return; }
      o := CleanJournal(j);
    }

    // What can have become of a promotion that took the gate: released or not, committed or not.
    ghost predicate Outcomes(j: Journal, was: seq<Option<Bytes>>, before: seq<Release>)
      reads this
    {
      && (logical == was || logical == News(j.entries))
      && match gate
         case None =>
           || (Released(before, releases, j.entries, true) && logical == News(j.entries))
           || (Released(before, releases, j.entries, false) && logical == was)
         case Some(g) =>
           && g == j.generation && g in prepared && prepared[g].journal == Some((Writer, j)) && releases == before
           && (if prepared[g].committed then logical == News(j.entries) else logical == was)
    }

    // `promoteLoginOutputs` against a gate that is shut: nothing changes hands.
    method Contend(j: Journal) returns (o: Outcome)
      requires Inv() && gate.Some? && j.generation !in prepared
      modifies this`gate, this`prepared, env`faults
      ensures Inv() && gate == old(gate) && prepared[gate.value] == old(prepared[gate.value])
      ensures !o.Done?
      ensures prepared.Keys <= old(prepared.Keys) + {j.generation}
      ensures env.faults >= old(env.faults)
    {
      o := Acquire(j);
      assert gate.value in prepared - {j.generation};
    }

    // The promotion once the gate is taken.
    method Transact(j: Journal, before: seq<Option<Bytes>>) returns (o: Outcome)
      requires Open(j) && Ledger() && prepared[j.generation] == Prepared(Some((Writer, j)), false, false)
      requires Quiet(j.entries) && |before| == |outputs|
      requires forall i :: 0 <= i < |outputs| ==> Hash(before[i]) == j.entries[i].before && outputs[i].staged.None?
      modifies this, outputs, env`faults
      ensures env.hostile || NoneLost(j.entries, old(logical)) ==> Inv()
      ensures Outcomes(j, old(logical), old(releases))
      ensures o.Done? ==> gate == None && logical == News(j.entries)
      ensures o.Done? ==> Released(old(releases), releases, j.entries, true)
      ensures !env.hostile && o.Done? ==> AllFresh(j.entries, old(logical))
      ensures prepared.Keys <= old(prepared.Keys)
      ensures env.faults >= old(env.faults)
      ensures !env.hostile && env.faults == old(env.faults) ==>
        && (o.Done? <==> AllFresh(j.entries, old(logical))) && (!o.Done? ==> logical == old(logical))
        && (gate == None <==> forall i :: 0 <= i < |outputs| ==> FreshOrLost(j.entries[i], old(logical)[i]))
        && (gate == None && !o.Done? ==>
              forall i :: 0 <= i < |outputs| ==> outputs[i].current == Undone(j.entries[i], old(logical)[i]))
    {
      o := Publish(j.entries, before);
      if o.Crashed? { return; }
      if o.Failed? {
        UndisturbedVerdict(j.entries);
        :- Undo(j);
        return Failed;
      }
      o := Finish(j);
    }

    // `promoteLoginOutputs` from line 344 on, with a snapshot that may have gone stale since it was
    // compared with the outputs.
    method PromoteFrom(pid: Pid, g: Generation, before: seq<Option<Bytes>>, news: seq<Bytes>) returns (o: Outcome)
      requires Inv() && gate == None && |before| == |news| == |outputs| && g !in prepared
      modifies this, outputs, env`faults
      ensures env.hostile || NoneLost(Entries(before, news), old(logical)) ==> Inv()
      ensures Outcomes(Journal(g, pid, Entries(before, news)), old(logical), old(releases)) ||
              (gate == None && logical == old(logical) && releases == old(releases) && !o.Done?)
      ensures o.Done? ==> gate == None && logical == News(Entries(before, news))
      ensures o.Done? ==> Released(old(releases), releases, Entries(before, news), true)
      ensures !env.hostile && o.Done? ==> AllFresh(Entries(before, news), old(logical))
      ensures prepared.Keys <= old(prepared.Keys) + {g}
      ensures env.faults >= old(env.faults)
      ensures !env.hostile && env.faults == old(env.faults) ==>
        && (o.Done? <==> AllFresh(Entries(before, news), old(logical))) && (!o.Done? ==> logical == old(logical))
        && (gate == None <==> forall i :: 0 <= i < |outputs| ==> FreshOrLost(Entries(before, news)[i], old(logical)[i]))
        && (gate == None && !o.Done? ==> forall i :: 0 <= i < |outputs| ==>
              outputs[i].current == Undone(Entries(before, news)[i], old(logical)[i]))
    {
      var j := Journal(g, pid, Entries(before, news));
      o := Acquire(j);
      if !o.Done? { return; }
      o := Transact(j, before);
    }

    // `promoteLoginOutputs`, when nothing else runs between the comparison and the gate.
    method Promote(pid: Pid, g: Generation, before: seq<Option<Bytes>>, news: seq<Bytes>) returns (o: Outcome)
      requires Inv() && |before| == |news| == |outputs| && g !in prepared
      modifies this, outputs, env`faults
      ensures Inv()
      ensures !env.hostile && old(Undisputed()) ==> Undisputed()
      ensures !old(Undisputed()) ==> !Undisputed() && gate == old(gate)
      ensures logical == old(logical) || logical == News(Entries(before, news))
      ensures o.Done? ==> gate == None && logical == News(Entries(before, news))
      ensures o.Done? ==> Released(old(releases), releases, Entries(before, news), true)
      ensures releases == old(releases) || (old(gate) == None && gate == None &&
        exists c :: Released(old(releases), releases, Entries(before, news), c))
      ensures prepared.Keys <= old(prepared.Keys) + {g}
      ensures env.faults >= old(env.faults)
      ensures !env.hostile && env.faults == old(env.faults) && old(gate) == None ==>
        gate == None && (o.Done? <==> 0 < |outputs| <= 25 && before == old(logical))
    {
      if !(0 < |news| <= 25) { return Failed; }
      :- SnapshotMatches(before);
      if gate.Some? {
        o := Contend(Journal(g, pid, Entries(before, news)));
      } else {
        o := PromoteFrom(pid, g, before, news);
      }
    }

    // The comparison of the outputs with the caller's snapshot, before the gate is taken.
    method SnapshotMatches(before: seq<Option<Bytes>>) returns (o: Outcome)
      requires Inv() && |before| == |outputs|
      modifies outputs, env`faults
      ensures Inv()
      ensures !env.hostile && gate == None ==>
        (o.Done? ==> before == logical) && (env.faults == old(env.faults) ==> (o.Done? <==> before == logical))
      ensures env.faults >= old(env.faults)
    {
      for i := 0 to |before|
        invariant Inv()
        invariant !env.hostile && gate == None ==> before[..i] == logical[..i]
        invariant env.faults >= old(env.faults)
      {
        var current :- Compare(i);
        if current != before[i] { return Failed; }
      }
      return Done;
    }

    // Reads output `i` without any protection.
    method Compare(i: nat) returns (o: Outcome, bytes: Option<Bytes>)
      requires Inv() && i < |outputs|
      modifies outputs[i], env`faults
      ensures Inv()
      ensures !env.hostile && gate == None && o.Done? ==> bytes == logical[i]
      ensures env.faults >= old(env.faults)
      ensures env.faults == old(env.faults) ==> o.Done?
    {
      outputs[i].Interfere();
      o, bytes := outputs[i].Read();
    }

    // `recoverLoginOutputs`: claims the journal of a dead process, then finishes or undoes it.
    method Recover(pid: Pid, uuid: nat, alive: set<Pid>) returns (o: Outcome)
      requires Inv()
      modifies this`gate, this`prepared, this`retired, this`releases, this`forgone, outputs, env`faults
      ensures Inv()
      ensures old(Undisputed()) ==> Undisputed()
      ensures !env.hostile && !old(Undisputed()) ==> !Undisputed() && gate == old(gate)
      ensures gate == old(gate) ==> releases == old(releases)
      ensures gate != old(gate) ==> gate == None && old(gate).Some?
      ensures gate != old(gate) ==> var p := old(prepared[gate.value]);
        Released(old(releases), releases, p.journal.value.1.entries, p.committed)
      ensures o.Done? ==> gate == None
      ensures env.faults >= old(env.faults)
      ensures !env.hostile && env.faults == old(env.faults) && old(gate).Some? ==>
        (o.Done? <==> Recoverable(old(prepared[gate.value]), old(Snapshot()), alive))
    {
      if gate.None? { return Failed; }
      var j := prepared[gate.value].journal.value.1;
      :- ClaimJournal(pid, uuid, alive);
      if prepared[j.generation].committed {
        :- Confirm(j.entries);
        o := CleanJournal(j);
      } else {
        o := Undo(j);
      }
    }

    // Checks that the owners of the journal behind the gate are dead, then renames it to a name of
    // one's own.
    method ClaimJournal(pid: Pid, uuid: nat, alive: set<Pid>) returns (o: Outcome)
      requires Inv() && gate.Some?
      modifies this`prepared, env`faults
      ensures gate.value in prepared && prepared[gate.value].committed == old(prepared[gate.value].committed)
      ensures prepared[gate.value].journal.Some? &&
        prepared[gate.value].journal.value.1 == old(prepared[gate.value].journal.value.1)
      ensures o.Done? ==> prepared[gate.value].journal.value.0 == Claimant(pid, uuid)
      ensures o.Done? ==> OwnersRetired(old(prepared[gate.value]), alive)
      ensures env.faults >= old(env.faults)
      ensures env.faults == old(env.faults) ==> (o.Done? <==> OwnersRetired(old(prepared[gate.value]), alive))
    {
      var g := gate.value;
      var lands;
      o, lands := env.Decide();
      if !o.Done? { return; }
      if !OwnersRetired(prepared[g], alive) { return Failed; }
      o, lands := env.Decide();
      if lands {
        prepared := prepared[g := prepared[g].(journal := Some((Claimant(pid, uuid), prepared[g].journal.value.1)))];
      }
    }

    // A committed promotion must still show its new bytes.
    method Confirm(entries: seq<Entry>) returns (o: Outcome)
      requires Sealed(entries)
      modifies outputs, env`faults
      ensures Sealed(entries)
      ensures o.Done? ==> SeenNew(entries, |outputs|)
      ensures env.faults >= old(env.faults)
      ensures !env.hostile && env.faults == old(env.faults) ==> o.Done?
    {
      for i := 0 to |entries|
        invariant Sealed(entries) && SeenNew(entries, i)
        invariant env.faults >= old(env.faults)
      {
        var read :- Look(outputs[i], entries[i].before);
        if read != New(entries[i]) { return Failed; }
      }
      return Done;
    }

    // Before any rollback has started, whether one would succeed depends on the snapshot alone.
    lemma UndisturbedVerdict(entries: seq<Entry>)
      requires Unrolled(entries)
      ensures !env.hostile ==>
        (UnwindsFrom(entries, Snapshot(), 0) <==>
           forall i :: 0 <= i < |outputs| ==> FreshOrLost(entries[i], logical[i]))
    {
      EveryEntryUnwinds(entries, Snapshot(), 0);
      if !env.hostile {
        forall i | 0 <= i < |outputs|
          ensures Unwinds(entries[i], Snapshot()[i]) <==> FreshOrLost(entries[i], logical[i])
        {
          assert EntryPending(outputs[i], entries[i], logical[i]);
        }
      }
    }
  }

  // `assertRetired` for the writer of the journal and for whoever claimed it last.
  predicate OwnersRetired(p: Prepared, alive: set<Pid>)
    requires p.journal.Some?
  {
    p.journal.value.1.pid !in alive && (p.journal.value.0.Claimant? ==> p.journal.value.0.pid !in alive)
  }

  // When recovery, left undisturbed, releases the gate.
  predicate Recoverable(p: Prepared, copies: seq<Copies>, alive: set<Pid>)
    requires p.journal.Some? && |p.journal.value.1.entries| == |copies|
  {
    OwnersRetired(p, alive) && (p.committed || UnwindsFrom(p.journal.value.1.entries, copies, 0))
  }

  predicate FreshOrLost(e: Entry, was: Option<Bytes>) {
    Fresh(e, was) || Lost(e, was)
  }

  // No entry is recorded as absent while its output already holds the new bytes.
  ghost predicate NoneLost(entries: seq<Entry>, was: seq<Option<Bytes>>)
    requires |entries| == |was|
  {
    forall i :: 0 <= i < |entries| ==> !Lost(entries[i], was[i])
  }

  // As the gate is taken: no private names are in use.
  ghost predicate Untouched(c: Output, was: Option<Bytes>)
    reads c
  {
    NoCopies(c) && InPlace(c) && (!c.env.hostile ==> c.current == was)
  }

  function Entries(before: seq<Option<Bytes>>, news: seq<Bytes>): (s: seq<Entry>)
    requires |before| == |news|
    ensures |s| == |before| && forall i :: 0 <= i < |s| ==> s[i] == Entry(Hash(before[i]), Sha256(news[i]))
  {
    seq(|before|, i requires 0 <= i < |before| => Entry(Hash(before[i]), Sha256(news[i])))
  }

  function News(entries: seq<Entry>): (s: seq<Option<Bytes>>)
    ensures |s| == |entries| && forall i :: 0 <= i < |entries| ==> s[i] == New(entries[i])
  {
    seq(|entries|, i requires 0 <= i < |entries| => New(entries[i]))
  }

  ghost predicate AllFresh(entries: seq<Entry>, was: seq<Option<Bytes>>)
    requires |entries| == |was|
  {
    forall i :: 0 <= i < |entries| ==> Fresh(entries[i], was[i])
  }

  // A rollback left undisturbed finds no conflict in the entries from `i` on.
  predicate UnwindsFrom(entries: seq<Entry>, copies: seq<Copies>, i: nat)
    requires |entries| == |copies|
    decreases |entries| - i
  {
    i >= |entries| || (Unwinds(entries[i], copies[i]) && UnwindsFrom(entries, copies, i + 1))
  }

  lemma {:induction false} EveryEntryUnwinds(entries: seq<Entry>, copies: seq<Copies>, i: nat)
    requires |entries| == |copies|
    ensures UnwindsFrom(entries, copies, i) <==> forall k :: i <= k < |entries| ==> Unwinds(entries[k], copies[k])
    decreases |entries| - i
  {
    if i < |entries| { EveryEntryUnwinds(entries, copies, i + 1); }
  }
}
