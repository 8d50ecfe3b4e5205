/**
 Undoing an unfinished promotion, entry by entry, and what an interruption may leave behind.
*/
module LoginRollback {
  import opened Faults
  import opened LoginDisk

  datatype Entry = Entry(before: Option<Digest>, after: Digest)

  // The three places where the bytes of one output may be.
  datatype Copies = Copies(current: Option<Bytes>, backup: Option<Bytes>, displaced: Option<Bytes>)

  function CopiesOf(c: Output): Copies
    reads c
  {
    Copies(c.current, c.backup, c.displaced)
  }

  function New(e: Entry): Option<Bytes> {
    Some(e.after.bytes)
  }

  // The snapshot in the journal is what the output held when the gate was taken.
  predicate Fresh(e: Entry, was: Option<Bytes>) {
    Hash(was) == e.before
  }

  // The journal says the output was absent, but it already held exactly the new bytes.
  predicate Lost(e: Entry, was: Option<Bytes>) {
    e.before.None? && was == New(e)
  }

  // What interrupting a promotion or a rollback at any step can leave of an entry whose output
  // held `was` when the gate was taken.
  predicate Interrupted(e: Entry, was: Option<Bytes>, c: Copies) {
    if Fresh(e, was) then
      || c == Copies(was, None, None)
      || c == Copies(None, was, None)
      || c == Copies(New(e), was, None)
      || c == Copies(None, was, New(e))
      || (was.Some? && (c == Copies(was, was, New(e)) || c == Copies(was, was, None)))
    else
      || c == Copies(was, None, None)
      || (was == New(e) && c == Copies(None, None, New(e)))
      || (Lost(e, was) && c == Copies(None, None, None))
  }

  // When a rollback left undisturbed finds no conflict in an entry.
  predicate Unwinds(e: Entry, c: Copies) {
    var restorable := c.backup.Some? || e.before.None?;
    && (c.backup.Some? ==> Hash(c.backup) == e.before)
    && (c.displaced.Some? ==> c.displaced == New(e))
    && (|| (c.current == New(e) && c.displaced.None? && (restorable || Hash(c.current) == e.before))
        || (c.current != New(e) && c.current.Some? && Hash(c.current) == e.before)
        || (c.current.None? && restorable))
  }

  // What the entry's output holds once the gate has been released without a commit.
  function Undone(e: Entry, was: Option<Bytes>): Option<Bytes> {
    if Lost(e, was) then None else was
  }

  // Bytes of the outside program are at the output or in a private copy, unless they are the bytes
  // of this digest.
  ghost predicate KeptBut(c: Output, lost: Option<Digest>)
    reads c
  {
    forall v :: v in c.claims ==>
      Some(Sha256(v)) == lost || c.current == Some(v) || c.backup == Some(v) || c.displaced == Some(v)
  }

  // An entry of a promotion that has not committed. A rollback may have dropped the new bytes.
  ghost predicate EntryPending(c: Output, e: Entry, was: Option<Bytes>)
    reads c
  {
    KeptBut(c, Some(e.after)) && (!c.env.hostile ==> Interrupted(e, was, CopiesOf(c)))
  }

  ghost predicate NoCopies(c: Output)
    reads c
  {
    c.staged == c.backup == c.displaced == None
  }

  // An entry that was undone, with nothing of it left: the original was last seen in its place.
  ghost predicate EntryUnwound(c: Output, e: Entry, was: Option<Bytes>)
    reads c
  {
    && KeptBut(c, Some(e.after)) && NoCopies(c) && Hash(c.known) == e.before
    && (!c.env.hostile ==> (Fresh(e, was) || Lost(e, was)) && c.current == Undone(e, was))
  }

  // An entry of a committed promotion: only private copies are left to remove, the original's among them.
  ghost predicate EntrySealed(c: Output, e: Entry, value: Option<Bytes>)
    reads c
  {
    && KeptBut(c, e.before)
    && c.displaced.None?
    && (c.backup.Some? ==> Hash(c.backup) == e.before)
    && (!c.env.hostile ==> c.current == New(e) == value)
  }

  // An entry of which nothing but a staged copy has been written.
  ghost predicate EntryQuiet(c: Output, e: Entry, was: Option<Bytes>)
    reads c
  {
    && KeptBut(c, None) && c.backup.None? && c.displaced.None?
    && (!c.env.hostile ==> c.current == was)
  }

  // An entry whose new bytes were linked and whose backup was checked.
  ghost predicate EntryPublished(c: Output, e: Entry, was: Option<Bytes>)
    reads c
  {
    && KeptBut(c, None) && c.displaced.None?
    && (c.backup.Some? ==> Hash(c.backup) == e.before)
    && (!c.env.hostile ==> Fresh(e, was) && c.backup == was && c.current == New(e))
  }

  // A rollback resumed after any interruption finishes, except where it had already relinked an
  // original that equals the new bytes: then it refuses (the edge of equal old and new bytes).
  lemma ResumedRollbackUnwinds(e: Entry, was: Option<Bytes>, c: Copies)
    requires Interrupted(e, was, c) && Fresh(e, was)
    ensures Unwinds(e, c) <==> !(was == New(e) && c.current.Some? && c.displaced.Some?)
    ensures e.before != Some(e.after) ==> Unwinds(e, c)
  {
  }

  // With a snapshot that had gone stale, the rollback finds no conflict exactly when the journal
  // says "absent" and the output already holds the new bytes; then those bytes are dropped.
  lemma StaleSnapshotUnwindsExactlyWhenLost(e: Entry, was: Option<Bytes>, c: Copies)
    requires Interrupted(e, was, c) && !Fresh(e, was)
    ensures Unwinds(e, c) <==> Lost(e, was)
  {
  }

  // Reads the output, after the outside program took its turn.
  method Look(c: Output, ghost lost: Option<Digest>) returns (o: Outcome, bytes: Option<Bytes>)
    requires KeptBut(c, lost)
    modifies c`current, c`claims, c`known, c.env`faults
    ensures KeptBut(c, lost) && (!c.env.hostile ==> c.current == old(c.current))
    ensures o.Done? ==> bytes == c.current == c.known
    ensures c.env.faults >= old(c.env.faults)
    ensures c.env.faults == old(c.env.faults) ==> o.Done?
  {
    c.Interfere();
    o, bytes := c.Read();
  }

  // Publishes a private copy as the output, after the outside program took its turn.
  method Place(c: Output, ghost lost: Option<Digest>, w: Which) returns (o: Outcome)
    requires KeptBut(c, lost)
    modifies c`current, c`claims, c`known, c.env`faults
    ensures KeptBut(c, lost)
    ensures o.Done? ==> c.current.Some? && c.current == c.known == c.Get(w)
    ensures !c.env.hostile ==>
      || (!o.Done? && c.current == old(c.current))
      || (!o.Failed? && old(c.current).None? && c.current == c.Get(w) && c.current.Some?)
    ensures c.env.faults >= old(c.env.faults)
    ensures !c.env.hostile && c.env.faults == old(c.env.faults) ==>
      (o.Done? <==> old(c.current).None? && c.Get(w).Some?) && !o.Crashed?
  {
    c.Interfere();
    o := c.LinkFrom(w);
  }

  // Moves the output out of the way, and back if other bytes had slipped in.
  method Vacate(c: Output, e: Entry, ghost was: Option<Bytes>) returns (o: Outcome, foreign: bool)
    requires EntryPending(c, e, was) && c.displaced.None?
    requires !c.env.hostile ==> c.current == New(e)
    requires !c.env.hostile ==> c.backup.Some? || Hash(c.current) != e.before
    modifies c`current, c`displaced, c`backup, c`claims, c`known, c.env`faults
    ensures EntryPending(c, e, was) && c.backup == old(c.backup)
    ensures o.Done? && !foreign ==> c.displaced == New(e) && c.current == c.known == None
    ensures o.Done? && foreign ==> c.displaced.Some? && c.displaced != New(e) && c.current == c.known == c.displaced
    ensures !c.env.hostile && o.Done? ==> !foreign
    ensures c.env.faults >= old(c.env.faults)
    ensures !c.env.hostile && c.env.faults == old(c.env.faults) ==> o.Done?
  {
    foreign := false;
    c.Interfere();
    :- c.MoveTo(Displaced);
    var moved :- c.ReadCopy(Displaced);
    if moved != New(e) {
      :- Place(c, Some(e.after), Displaced);
      return Done, true;
    }
    return Done, false;
  }

  // The second half of that body: the output is vacant, or holds bytes other than the new ones.
  method Reinstate(c: Output, e: Entry, conflict: bool, seen: Option<Bytes>, backup: Option<Bytes>,
                   ghost was: Option<Bytes>)
    returns (o: Outcome, bad: bool)
    requires EntryPending(c, e, was)
    requires c.backup == backup && (backup.Some? ==> Hash(backup) == e.before)
    requires c.displaced == None || c.displaced == New(e)
    requires seen != New(e) && c.current == c.known == seen
    modifies c, c.env`faults
    ensures EntryPending(c, e, was) && (c.displaced == None || c.displaced == New(e))
    ensures o.Done? && !bad ==> !conflict && EntryUnwound(c, e, was)
    ensures c.env.faults >= old(c.env.faults)
    ensures !c.env.hostile && c.env.faults == old(c.env.faults) ==>
      !o.Crashed? && (o.Done? && !bad <==> !conflict && old(Unwinds(e, CopiesOf(c))))
    ensures !c.env.hostile && backup == seen == None ==> c.current == None
  {
    bad := true;
    var current := seen;
    if backup.Some? {
      if current.None? {
        :- Place(c, Some(e.after), Backup);
        current :- Look(c, Some(e.after));
      }
      if current != backup { return Done, true; }
    } else if e.before.Some? {
      if Hash(current) != e.before { return Done, true; }
    } else if current.Some? {
      return Done, true;
    }
    if !conflict {
      :- c.Remove(Displaced);
      :- c.Remove(Backup);
      :- c.Remove(Staged);
    }
    return Done, conflict;
  }

  // The body of the `try` in `rollback`. `conflict` is the flag as the loop reached this entry;
  // `bad` is the flag as it leaves it.
  method UnwindEntry(c: Output, e: Entry, conflict: bool, ghost was: Option<Bytes>)
    returns (o: Outcome, bad: bool)
    requires EntryPending(c, e, was)
    modifies c, c.env`faults
    ensures EntryPending(c, e, was)
    ensures o.Done? && !bad ==> !conflict && EntryUnwound(c, e, was)
    ensures o.Done? && c.displaced.Some? && c.displaced != New(e) ==> c.known.Some?
    ensures c.env.faults >= old(c.env.faults)
    ensures !c.env.hostile && c.env.faults == old(c.env.faults) ==>
      !o.Crashed? && (o.Done? && !bad <==> !conflict && old(Unwinds(e, CopiesOf(c))))
    ensures !c.env.hostile && c.env.faults == old(c.env.faults) ==>
      (e.before != Some(e.after) && old(CopiesOf(c)) == Copies(New(e), None, None) ==> c.current == None)
  {
    bad := true;
    var current :- Look(c, Some(e.after));
    var backup :- c.ReadCopy(Backup);
    if backup.Some? && Hash(backup) != e.before { return Failed, true; }
    var displaced :- c.ReadCopy(Displaced);
    if backup.None? && current.Some? && Hash(current) == e.before && displaced.None? {
      :- c.Remove(Staged);
      return Done, conflict;
    }
    if displaced.Some? && displaced != New(e) {
      if current.None? {
        :- Place(c, Some(e.after), Displaced);
      }
      return Done, true;
    }
    if current == New(e) {
      if displaced.Some? { return Failed, true; }
      var foreign :- Vacate(c, e, was);
      if foreign { return Done, true; }
      current := None;
    }
    o, bad := Reinstate(c, e, conflict, current, backup, was);
  }

  // Publishing one entry: the original is moved to the backup and checked there, then the staged
  // bytes are linked, which fails if somebody else created the output meanwhile.
  method PublishEntry(c: Output, e: Entry, before: Option<Bytes>, ghost was: Option<Bytes>) returns (o: Outcome)
    requires Hash(before) == e.before
    requires EntryQuiet(c, e, was) && c.staged == New(e)
    modifies c`current, c`backup, c`displaced, c`claims, c`known, c.env`faults
    ensures EntryPending(c, e, was) && c.displaced.None?
    ensures o.Done? ==> EntryPublished(c, e, was)
    ensures c.env.faults >= old(c.env.faults)
    ensures !c.env.hostile && c.env.faults == old(c.env.faults) ==> !o.Crashed? && (o.Done? <==> Fresh(e, was))
  {
    var current :- Look(c, None);
    if current != before { return Failed; }
    if e.before.Some? {
      var taken :- c.ReadCopy(Backup);
      if taken.Some? { return Failed; }
      c.Interfere();
      :- c.MoveTo(Backup);
      var moved :- c.ReadCopy(Backup);
      if Hash(moved) != e.before { return Failed; }
    }
    :- Place(c, None, Staged);
    return Done;
  }

  // Retiring the private copies of one entry, once it is settled one way or the other.
  method SweepEntry(c: Output, e: Entry, ghost committed: bool, ghost value: Option<Bytes>) returns (o: Outcome)
    requires if committed then EntrySealed(c, e, value) else EntryUnwound(c, e, value)
    modifies c`staged, c`backup, c`displaced, c.env`faults
    ensures if committed then EntrySealed(c, e, value) else EntryUnwound(c, e, value)
    ensures o.Done? ==> NoCopies(c)
    ensures c.env.faults >= old(c.env.faults)
    ensures c.env.faults == old(c.env.faults) ==> o.Done?
  {
    o := c.Remove(Backup);
    if !o.Done? { return; }
    :- c.Remove(Staged);
    :- c.Remove(Displaced);
    return Done;
  }
}
