/**
 Whole histories of promotions and recoveries: what a reader of an open gate can see, and when
 recovery gets there.
*/
module LoginHistory {
  import opened Faults
  import opened LoginDisk
  import opened LoginRollback
  import opened LoginPromotion

  ghost function Contents(d: Directory): (s: seq<Option<Bytes>>)
    reads d.outputs
    ensures |s| == |d.outputs| && forall i :: 0 <= i < |s| ==> s[i] == d.outputs[i].current
  {
    seq(|d.outputs|, i requires 0 <= i < |d.outputs| reads d.outputs => d.outputs[i].current)
  }

  // The promotion would find an output that its snapshot says is absent holding exactly the new bytes.
  predicate WouldLose(d: Directory, before: seq<Option<Bytes>>, news: seq<Bytes>)
    requires |before| == |news| == |d.outputs|
    reads d.outputs
  {
    exists i :: 0 <= i < |before| && before[i].None? && d.outputs[i].current == Some(news[i])
  }

  // Any number of promotions and recoveries, each of which may fail or die at any step. A promotion may
  // have taken its snapshot at any earlier time, while others were running (`stale`), as long as it
  // would not lose an output. Then, whenever the gate is open and nobody else writes the outputs, they
  // are all as they were at first or all as one promotion asked. If somebody else does write them, what
  // they wrote is at the output whenever the gate is open, except for bytes that equal the originals of
  // a committed promotion or the new bytes of an undone one; and the gate was only ever released with
  // every output seen to be as the journal wants it.
  method AnyHistory(d: Directory) returns (ghost asked: set<seq<Option<Bytes>>>, ghost stale: bool)
    requires d.Inv()
    modifies d, d.outputs, d.env`faults
    ensures d.Inv() && (!d.env.hostile && !stale && old(d.Undisputed()) ==> d.Undisputed())
    ensures !d.env.hostile && !old(d.Undisputed()) ==> !d.Undisputed() && d.gate == old(d.gate)
    ensures !d.env.hostile && d.gate == None ==> Contents(d) == old(d.logical) || Contents(d) in asked
    ensures d.logical == old(d.logical) || d.logical in asked
    ensures old(d.releases) <= d.releases && forall r :: r in d.releases ==> Proper(r)
    ensures d.gate == None ==> forall i :: 0 <= i < |d.outputs| ==> InPlace(d.outputs[i])
    ensures forall i, v :: 0 <= i < |d.outputs| && v in d.forgone[i] ==> Excused(d.releases, i, v)
  {
    asked, stale := {}, false;
    var calls: nat := *;
    while calls > 0
      invariant d.Inv() && (!d.env.hostile && !stale && old(d.Undisputed()) ==> d.Undisputed())
      invariant !d.env.hostile && !old(d.Undisputed()) ==> !d.Undisputed() && d.gate == old(d.gate)
      invariant d.logical == old(d.logical) || d.logical in asked
      invariant old(d.releases) <= d.releases
    {
      ghost var s;
      ghost var news;
      news, s := AnyCall(d);
      asked, stale := asked + news, stale || s;
      calls := calls - 1;
    }
    assert !d.env.hostile && d.gate == None ==> Contents(d) == d.logical;
  }

  // One such call.
  method AnyCall(d: Directory) returns (ghost asked: set<seq<Option<Bytes>>>, ghost stale: bool)
    requires d.Inv()
    modifies d, d.outputs, d.env`faults
    ensures d.Inv() && (!d.env.hostile && !stale && old(d.Undisputed()) ==> d.Undisputed())
    ensures !d.env.hostile && !old(d.Undisputed()) ==> !d.Undisputed() && d.gate == old(d.gate)
    ensures d.logical == old(d.logical) || d.logical in asked
    ensures old(d.releases) <= d.releases
  {
    asked, stale := {}, false;
    var pid: Pid, g: Generation, uuid: nat, alive: set<Pid>, o: Outcome := *, *, *, *, Done;
    var before: seq<Option<Bytes>>, news: seq<Bytes> := *, *;
    if |before| != |news| || |news| != |d.outputs| || g in d.prepared {
      o := d.Recover(pid, uuid, alive);
    } else {
      asked := {News(Entries(before, news))};
      var late := *;
      if late && d.gate.None? && (d.env.hostile || !WouldLose(d, before, news)) {
        stale := true;
        assert !d.env.hostile ==> NoneLost(Entries(before, news), d.logical);
        o := d.PromoteFrom(pid, g, before, news);
      } else {
        o := d.Promote(pid, g, before, news);
      }
    }
  }

  // From every state that such histories reach, however they went: one recovery, left undisturbed, opens
  // the gate exactly if the owners are dead and the promotion committed, or every entry of the journal was
  // fresh as the gate was taken and no rollback had relinked an original that equals the new bytes. Then
  // all outputs are new, exactly if the commit marker was linked, and all are the originals otherwise.
  method EventuallySettled(d: Directory, pid: Pid, uuid: nat, alive: set<Pid>) returns (o: Outcome)
    requires d.Inv() && !d.env.hostile && d.gate.Some?
    modifies d`gate, d`prepared, d`retired, d`releases, d`forgone, d.outputs, d.env`faults
    ensures d.Inv() && (d.env.faults == old(d.env.faults) ==> (o.Done? <==> old(CanSettle(d, alive))))
    ensures o.Done? ==> d.gate == None && Contents(d) == d.logical
    ensures o.Done? ==> var p := old(d.prepared[d.gate.value]); var entries := p.journal.value.1.entries;
      forall i :: 0 <= i < |d.outputs| ==>
        Hash(Contents(d)[i]) == if p.committed then Some(entries[i].after) else entries[i].before
  {
    GateIsRecoverable(d, alive);
    ghost var p := d.prepared[d.gate.value];
    assert p.committed ==> d.Sealed(p.journal.value.1.entries);
    o := d.Recover(pid, uuid, alive);
    assert o.Done? ==> forall i :: 0 <= i < |d.outputs| ==> Untouched(d.outputs[i], d.logical[i]);
  }

  // The condition: a look at the journal, at the copies, and at what the outputs held before.
  ghost predicate CanSettle(d: Directory, alive: set<Pid>)
    requires d.Inv() && d.gate.Some?
    reads d, d.outputs
  {
    var p := d.prepared[d.gate.value];
    var entries := p.journal.value.1.entries;
    && OwnersRetired(p, alive)
    && (p.committed ||
        forall i :: 0 <= i < |entries| ==>
          Fresh(entries[i], d.logical[i]) && !Relinked(entries[i], d.Snapshot()[i]))
  }

  // An earlier rollback died after relinking an original that equals the new bytes.
  predicate Relinked(e: Entry, c: Copies) {
    e.before == Some(e.after) && c.current.Some? && c.displaced.Some?
  }

  lemma GateIsRecoverable(d: Directory, alive: set<Pid>)
    requires d.Inv() && !d.env.hostile && d.gate.Some?
    ensures Recoverable(d.prepared[d.gate.value], d.Snapshot(), alive) <==> CanSettle(d, alive)
  {
    var p := d.prepared[d.gate.value];
    var entries := p.journal.value.1.entries;
    EveryEntryUnwinds(entries, d.Snapshot(), 0);
    if !p.committed {
      forall i | 0 <= i < |entries|
        ensures Unwinds(entries[i], d.Snapshot()[i]) <==>
          Fresh(entries[i], d.logical[i]) && !Relinked(entries[i], d.Snapshot()[i])
      {
        assert EntryPending(d.outputs[i], entries[i], d.logical[i]);
        if Fresh(entries[i], d.logical[i]) {
          ResumedRollbackUnwinds(entries[i], d.logical[i], d.Snapshot()[i]);
        } else {
          StaleSnapshotUnwindsExactlyWhenLost(entries[i], d.logical[i], d.Snapshot()[i]);
        }
      }
    }
  }

  // Hence recovery always gets there if no promotion went on with a stale snapshot (`AnyHistory` keeps
  // `Undisputed`) and no new bytes equal the old ones.
  lemma UndisputedGateCanSettle(d: Directory, alive: set<Pid>)
    requires d.Inv() && d.gate.Some?
    requires d.Undisputed() && NewBytesDiffer(d.prepared[d.gate.value].journal.value.1.entries)
    ensures CanSettle(d, alive) <==> OwnersRetired(d.prepared[d.gate.value], alive)
  {
  }

  ghost predicate NewBytesDiffer(entries: seq<Entry>) {
    forall i :: 0 <= i < |entries| ==> entries[i].before != Some(entries[i].after)
  }

  // Without a fault, a crash, an outside writer or equal bytes: two promoters took the same snapshot, the
  // first commits, and the other one fails its own check, meets a conflict in its rollback and leaves the
  // gate shut on a journal that no recovery can settle.
  method StaleSnapshotJamsTheGate(d: Directory, a: Bytes, b: Bytes, c: Bytes)
    requires d.Inv() && !d.env.hostile && d.gate == None && |d.outputs| == 1
    requires d.logical == [Some(b)] && a != b && a != c && 1 !in d.prepared && 2 !in d.prepared
    modifies d, d.outputs, d.env`faults
    ensures d.env.faults == old(d.env.faults) ==>
      d.Inv() && !d.Undisputed() && d.gate == Some(2) && d.logical == [Some(a)]
    ensures d.env.faults == old(d.env.faults) ==> forall alive :: !CanSettle(d, alive)
  {
    var o := d.Promote(1, 1, [Some(b)], [a]);
    if !o.Done? { return; }
    assert d.logical == [Some(a)];
    ghost var entries := Entries([Some(b)], [c]);
    assert !FreshOrLost(entries[0], d.logical[0]);
    o := d.PromoteFrom(2, 2, [Some(b)], [c]);
    if d.env.faults == old(d.env.faults) {
      assert !Fresh(entries[0], d.logical[0]);
    }
  }

  // It stays so: after whatever is called next, and however those calls end, a recovery does not succeed.
  method JammedGateStaysShut(d: Directory, pid: Pid, uuid: nat, alive: set<Pid>) returns (o: Outcome)
    requires d.Inv() && !d.env.hostile && d.gate.Some? && !d.Undisputed()
    modifies d, d.outputs, d.env`faults
    ensures d.Inv() && d.gate == old(d.gate) && !d.Undisputed() && !o.Done?
    ensures forall alive' :: !CanSettle(d, alive')
  {
    ghost var asked, stale := AnyHistory(d);
    o := d.Recover(pid, uuid, alive);
  }

  // Two promoters took the same snapshot. The first creates the first output and keeps the second; the
  // other one wants the same bytes for the first output and new ones for the second. It fails, and
  // leaves neither what the first promoter committed nor what it asked for itself, with the gate open.
  method StaleSnapshotLosesACommittedOutput(d: Directory, a: Bytes, b: Bytes, c: Bytes)
    requires d.Inv() && !d.env.hostile && d.gate == None && |d.outputs| == 2
    requires d.logical == [None, Some(b)] && b != c && 1 !in d.prepared && 2 !in d.prepared
    modifies d, d.outputs, d.env`faults
    ensures d.env.faults == old(d.env.faults) ==>
      d.gate == None && d.logical == [Some(a), Some(b)] && Contents(d) == [None, Some(b)]
  {
    var snapshot := [None, Some(b)];
    var o := d.Promote(1, 1, snapshot, [a, b]);
    if !o.Done? { return; }
    assert d.logical == [Some(a), Some(b)];
    ghost var entries := Entries(snapshot, [a, c]);
    assert Lost(entries[0], d.logical[0]) && Fresh(entries[1], d.logical[1]);
    o := d.PromoteFrom(2, 2, snapshot, [a, c]);
  }

  // Why a commit excuses the original's bytes: the outside program writes exactly these just before they
  // are moved to the backup, and they go with the backup. No other bytes do.
  method CommitDropsAnEqualWrite(c: Output, e: Entry, v: Bytes) returns (o: Outcome)
    requires c.current == Some(v) && c.claims == {} && c.backup == c.displaced == None
    requires e.before == Some(Sha256(v)) != Some(e.after) && c.staged == New(e)
    modifies c, c.env`faults
    ensures c.env.faults == old(c.env.faults) ==> v in c.claims && Some(v) !in {c.current, c.backup, c.displaced}
  {
    c.WriteOutside(Some(v));
    :- c.MoveTo(Backup);
    :- c.LinkFrom(Staged);
    o := SweepEntry(c, e, true, New(e));
  }

  // Why an undo excuses the new bytes: the outside program writes exactly these over the published ones,
  // just before they are moved away, and they are removed. No other bytes are.
  method UndoDropsAnEqualWrite(c: Output, e: Entry) returns (o: Outcome)
    requires e.before.None? && c.current == New(e) && c.claims == {} && c.backup == c.displaced == None
    modifies c, c.env`faults
    ensures c.env.faults == old(c.env.faults) ==>
      e.after.bytes in c.claims && c.current == c.backup == c.displaced == None
  {
    c.WriteOutside(New(e));
    :- c.MoveTo(Displaced);
    var moved :- c.ReadCopy(Displaced);
    if moved != New(e) { return Failed; }
    o := c.Remove(Displaced);
  }

  // What the claimant of an orphaned journal does once the commit marker is gone: the committed bytes
  // disappear from the output.
  method OrphanClaimantUnpublishes(c: Output, e: Entry) returns (o: Outcome)
    requires !c.env.hostile && c.claims == {} && c.current == New(e) && NoCopies(c) && e.before != Some(e.after)
    modifies c, c.env`faults
    ensures c.env.faults == old(c.env.faults) ==> c.current == None
  {
    var bad;
    o, bad := UnwindEntry(c, e, false, New(e));
  }
}
