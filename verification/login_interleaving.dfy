/**
 Promoters and recoverers side by side, down to the single file operation: `LoginOwnership` together with
 what the operations do to the outputs. Whatever the interleaving, and whoever throws or dies, as long as
 nobody left an orphan an open gate shows what whole promotions leave that run one after the other.
 Nobody else writes the outputs here, and a journal's entries are arbitrary: its snapshot may be of any
 earlier time. Staged copies always hold the new bytes and are not shown.
*/
module LoginInterleaving {
  import opened Faults
  import opened LoginDisk
  import opened LoginRollback
  import opened LoginPromotion
  import Own = LoginOwnership

  // ---- One entry ----

  // The next operation of a process on an entry, with what it has read before.
  datatype Stage =
    | Looking
    | Moving
    | Checking
    | Linking
    | Reading
    | ReadingBackup(seen: Option<Bytes>)
    | ReadingDisplaced(seen: Option<Bytes>, backup: Option<Bytes>)
    | Displacing(backup: Option<Bytes>)
    | Inspecting(backup: Option<Bytes>)
    | PuttingBack
    | Relinking(backup: Option<Bytes>)
    | Rereading(backup: Option<Bytes>)
    | DroppingDisplaced
    | DroppingBackup

  // What an operation leaves, and how the process goes on: with the same entry, with the next one, or
  // with an assertion that failed.
  datatype Turn = Go(copies: Copies, stage: Stage) | Next(copies: Copies) | Stop(copies: Copies)

  // Publishing an entry (the body of the loop in `promoteLoginOutputs`).
  function PublishTurn(e: Entry, c: Copies, st: Stage): Turn {
    match st
    case Looking =>
      if Hash(c.current) != e.before then Stop(c) else Go(c, if e.before.Some? then Moving else Linking)
    case Moving =>
      if c.backup.Some? || c.current.None? then Stop(c) else Go(c.(current := None, backup := c.current), Checking)
    case Checking => if Hash(c.backup) != e.before then Stop(c) else Go(c, Linking)
    case Linking => if c.current.Some? then Stop(c) else Next(c.(current := New(e)))
    case _ => Stop(c)
  }

  // Once the output is vacant or holds bytes other than the new ones.
  function RestoreTurn(e: Entry, conflict: bool, c: Copies, seen: Option<Bytes>, backup: Option<Bytes>): Turn {
    if backup.Some? && seen.None? then Go(c, Relinking(backup))
    else if (if backup.Some? then seen != backup else Hash(seen) != e.before) then Stop(c)
    else if conflict then Next(c)
    else Go(c, DroppingDisplaced)
  }

  // Undoing an entry (the body of the loop in `rollback`); a failed assertion is a conflict.
  function UndoTurn(e: Entry, conflict: bool, c: Copies, st: Stage): Turn {
    match st
    case Reading => Go(c, ReadingBackup(c.current))
    case ReadingBackup(seen) =>
      if c.backup.Some? && Hash(c.backup) != e.before then Stop(c) else Go(c, ReadingDisplaced(seen, c.backup))
    case ReadingDisplaced(seen, backup) =>
      if backup.None? && seen.Some? && Hash(seen) == e.before && c.displaced.None? then Next(c)
      else if c.displaced.Some? && c.displaced != New(e) then
        if seen.None? then Go(c, PuttingBack) else Stop(c)
      else if seen == New(e) then
        if c.displaced.Some? then Stop(c) else Go(c, Displacing(backup))
      else RestoreTurn(e, conflict, c, seen, backup)
    case Displacing(backup) =>
      if c.current.None? then Stop(c) else Go(c.(current := None, displaced := c.current), Inspecting(backup))
    case Inspecting(backup) =>
      if c.displaced != New(e) then Go(c, PuttingBack) else RestoreTurn(e, conflict, c, None, backup)
    case PuttingBack => Stop(if c.current.None? then c.(current := c.displaced) else c)
    case Relinking(backup) =>
      if c.current.Some? || c.backup.None? then Stop(c) else Go(c.(current := c.backup), Rereading(backup))
    case Rereading(backup) =>
      if c.current != backup then Stop(c) else if conflict then Next(c) else Go(c, DroppingDisplaced)
    case DroppingDisplaced => Go(c.(displaced := None), DroppingBackup)
    case DroppingBackup => Next(c.(backup := None))
    case _ => Stop(c)
  }

  // The original is in the backup and the new bytes are in place.
  predicate Published(e: Entry, was: Option<Bytes>, c: Copies) {
    Fresh(e, was) && c == Copies(New(e), was, None)
  }

  // The entry was undone and nothing of it is left.
  predicate Unwound(e: Entry, was: Option<Bytes>, c: Copies) {
    FreshOrLost(e, was) && c == Copies(Undone(e, was), None, None)
  }

  // Where an entry stands between two operations that publish it.
  predicate Publishing(e: Entry, was: Option<Bytes>, c: Copies, st: Stage) {
    match st
    case Looking => c == Copies(was, None, None)
    case Moving => Fresh(e, was) && was.Some? && c == Copies(was, None, None)
    case Checking => Fresh(e, was) && was.Some? && c == Copies(None, was, None)
    case Linking => Fresh(e, was) && c == Copies(None, was, None)
    case _ => false
  }

  // Where an entry stands between two operations that undo it. What was read is still so.
  predicate Undoing(e: Entry, was: Option<Bytes>, conflict: bool, c: Copies, st: Stage) {
    Interrupted(e, was, c) &&
    match st
    case Reading => true
    case ReadingBackup(seen) => c.current == seen
    case ReadingDisplaced(seen, backup) => c.current == seen && c.backup == backup
    case Displacing(backup) =>
      && c.current == New(e) && c.displaced.None? && c.backup == backup
      && (backup.Some? || e.before != Some(e.after))
    case Inspecting(backup) => c.current.None? && c.displaced == New(e) && c.backup == backup
    case PuttingBack => false
    case Relinking(backup) => c.current.None? && c.backup == backup && backup.Some?
    case Rereading(backup) => c.current == c.backup == backup && backup.Some?
    case DroppingDisplaced => !conflict && FreshOrLost(e, was) && c.current == Undone(e, was)
    case DroppingBackup => !conflict && FreshOrLost(e, was) && c.current == Undone(e, was) && c.displaced.None?
    case _ => false
  }

  lemma PublishTurnKeeps(e: Entry, was: Option<Bytes>, c: Copies, st: Stage)
    requires Publishing(e, was, c, st)
    ensures var t := PublishTurn(e, c, st);
      && (t.Go? ==> Publishing(e, was, t.copies, t.stage))
      && (t.Next? ==> Published(e, was, t.copies))
      && (t.Stop? ==> t.copies == c)
    ensures Interrupted(e, was, c)
  {
  }

  lemma UndoTurnKeeps(e: Entry, was: Option<Bytes>, conflict: bool, c: Copies, st: Stage)
    requires Undoing(e, was, conflict, c, st)
    ensures var t := UndoTurn(e, conflict, c, st);
      && (t.Go? ==> Undoing(e, was, conflict, t.copies, t.stage))
      && (t.Next? ==> Interrupted(e, was, t.copies) && (!conflict ==> Unwound(e, was, t.copies)))
      && (t.Stop? ==> Interrupted(e, was, t.copies))
  {
  }

  // ---- Whole calls, one after the other ----

  // A promotion that ran as a whole, and whether it committed.
  datatype Call = Call(g: Generation, entries: seq<Entry>, committed: bool)

  // A promotion commits only if its snapshot is what the outputs hold.
  predicate Legal(was: seq<Option<Bytes>>, call: Call) {
    && |call.entries| == |was|
    && forall k :: 0 <= k < |was| ==>
         if call.committed then Fresh(call.entries[k], was[k]) else FreshOrLost(call.entries[k], was[k])
  }

  // All outputs are new, or all are as before but for those that the snapshot had lost.
  function Settle(was: seq<Option<Bytes>>, call: Call): (r: seq<Option<Bytes>>)
    requires |call.entries| == |was|
    ensures |r| == |was|
    ensures forall k :: 0 <= k < |was| ==>
      r[k] == if call.committed then New(call.entries[k]) else Undone(call.entries[k], was[k])
  {
    if call.committed then News(call.entries)
    else seq(|was|, k requires 0 <= k < |was| => Undone(call.entries[k], was[k]))
  }

  // What the outputs hold after these calls, if each of them is legal in its turn.
  function Replay(first: seq<Option<Bytes>>, calls: seq<Call>): Option<seq<Option<Bytes>>> {
    if calls == [] then Some(first)
    else
      var last := calls[|calls| - 1];
      match Replay(first, calls[..|calls| - 1])
      case None => None
      case Some(was) => if Legal(was, last) then Some(Settle(was, last)) else None
  }

  lemma ReplayOneMore(first: seq<Option<Bytes>>, calls: seq<Call>, was: seq<Option<Bytes>>, call: Call)
    requires Replay(first, calls) == Some(was) && Legal(was, call)
    ensures Replay(first, calls + [call]) == Some(Settle(was, call))
  {
    assert (calls + [call])[..|calls|] == calls;
  }

  // ---- The machine ----

  // What a process that acts for a generation is about to do.
  datatype Work =
    | Publish(i: nat, stage: Stage)
    | ReadBack(i: nat)
    | Undo(left: nat, conflict: bool, stage: Stage)
    | Confirm(i: nat)
    | Sweep(i: nat, half: bool)

  datatype World = World(
    own: Own.State,
    // The journals' entries.
    entries: map<Generation, seq<Entry>>,
    disk: seq<Copies>,
    work: map<Pid, Work>,
    // History: the promotions that released the gate, and what the outputs held after the last of them.
    calls: seq<Call>,
    was: seq<Option<Bytes>>)

  datatype Move =
    | Begin(p: Pid, g: Generation, entries: seq<Entry>)
    | Step(action: Own.Action)
    | Operate(p: Pid)
    | Refuse(p: Pid)

  function Plain(contents: seq<Option<Bytes>>): seq<Copies> {
    seq(|contents|, k requires 0 <= k < |contents| => Copies(contents[k], None, None))
  }

  function Start(contents: seq<Option<Bytes>>): World {
    World(Own.START, map[], Plain(contents), map[], [], contents)
  }

  // The process changes outputs, or retires private copies.
  predicate Active(ph: Own.Phase) {
    ph.Publishing? || ph.Undoing? || ph.Confirming?
  }

  predicate ActsIn(s: Own.State, p: Pid) {
    p in s.procs && Active(s.procs[p])
  }

  predicate Acting(w: World, p: Pid) {
    ActsIn(w.own, p)
  }

  predicate Equipped(w: World, p: Pid) {
    && Acting(w, p) && p in w.work && |w.was| == |w.disk|
    && w.own.procs[p].g in w.entries && |w.entries[w.own.procs[p].g]| == |w.disk|
  }

  function Entries(w: World, p: Pid): (es: seq<Entry>)
    requires Equipped(w, p)
    ensures |es| == |w.disk|
  {
    w.entries[w.own.procs[p].g]
  }

  function Turned(w: World, p: Pid, work: Work): World {
    w.(work := w.work[p := work])
  }

  function Wrote(w: World, p: Pid, i: nat, c: Copies, work: Work): World
    requires i < |w.disk|
  {
    w.(disk := w.disk[i := c], work := w.work[p := work])
  }

  // An error while publishing starts the rollback.
  function GiveUp(w: World, p: Pid): World {
    Turned(w.(own := Own.Apply(w.own, Own.Abandon(p))), p, Undo(|w.disk|, false, Reading))
  }

  // The next file operation of a process.
  function Operated(w: World, p: Pid): World {
    if !Equipped(w, p) then w else
    var ph, es := w.own.procs[p], Entries(w, p);
    match w.work[p]
    case Publish(i, st) =>
      if !ph.Publishing? || i >= |es| then w else
      (match PublishTurn(es[i], w.disk[i], st)
       case Go(c, st') => Wrote(w, p, i, c, Publish(i, st'))
       case Next(c) => Wrote(w, p, i, c, if i + 1 < |es| then Publish(i + 1, Looking) else ReadBack(0))
       case Stop(_) => GiveUp(w, p))
    case ReadBack(i) =>
      if !ph.Publishing? || i >= |es| then w
      else if w.disk[i].current == New(es[i]) then Turned(w, p, ReadBack(i + 1))
      else GiveUp(w, p)
    case Undo(left, conflict, st) =>
      if !ph.Undoing? || left > |es| || (left == 0 && conflict) then w
      else if left == 0 then Turned(w, p, Sweep(0, false))
      else
      (match UndoTurn(es[left - 1], conflict, w.disk[left - 1], st)
       case Go(c, st') => Wrote(w, p, left - 1, c, Undo(left, conflict, st'))
       case Next(c) => Wrote(w, p, left - 1, c, Undo(left - 1, conflict, Reading))
       case Stop(c) => Wrote(w, p, left - 1, c, Undo(left - 1, true, Reading)))
    case Confirm(i) =>
      if !ph.Confirming? || i > |es| then w
      else if i == |es| then Turned(w, p, Sweep(0, false))
      else if w.disk[i].current == New(es[i]) then Turned(w, p, Confirm(i + 1))
      else w.(own := Own.Apply(w.own, Own.Throw(p)))
    case Sweep(i, half) =>
      if ph.Publishing? || i >= |es| then w
      else if !half then Wrote(w, p, i, w.disk[i].(backup := None), Sweep(i, true))
      else Wrote(w, p, i, w.disk[i].(displaced := None), Sweep(i + 1, false))
  }

  // The operation is refused: while undoing that counts as a conflict, while publishing it starts the undo.
  function Refused(w: World, p: Pid): World {
    if !Equipped(w, p) then w
    else if w.own.procs[p].Publishing? then GiveUp(w, p)
    else if w.own.procs[p].Undoing? && w.work[p].Undo? && w.work[p].left > 0 then
      Turned(w, p, Undo(w.work[p].left - 1, true, Reading))
    else w.(own := Own.Apply(w.own, Own.Throw(p)))
  }

  // A step of `LoginOwnership`, allowed where the program of the process has come to it.
  function Stepped(w: World, a: Own.Action): World {
    var t := w.(own := Own.Apply(w.own, a));
    match a
    case Prepare(_, _) => w
    case Commit(p) =>
      if Equipped(w, p) && w.own.procs[p].Publishing? && w.work[p] == ReadBack(|w.disk|) then
        Turned(t, p, Sweep(0, false))
      else w
    case Abandon(p) => if Acting(w, p) && w.own.procs[p].Publishing? then GiveUp(w, p) else w
    case Release(p) =>
      if !(Equipped(w, p) && !w.own.procs[p].Publishing? && w.work[p] == Sweep(|w.disk|, false)) then w
      else if w.own.gate != Some(w.own.procs[p].g) then t
      else
        var call := Call(w.own.procs[p].g, Entries(w, p), w.own.procs[p].Confirming?);
        t.(calls := w.calls + [call], was := Settle(w.was, call))
    case LinkGate(p) =>
      if Acting(w, p) || !Acting(t, p) then t else Turned(t, p, Publish(0, Looking))
    case Claim(p, _) =>
      if Acting(w, p) || !Acting(t, p) then t
      else Turned(t, p, if t.own.procs[p].Undoing? then Undo(|w.disk|, false, Reading) else Confirm(0))
    case _ => t
  }

  function Moved(w: World, m: Move): World {
    match m
    case Begin(p, g, es) =>
      if 0 < |es| <= 25 && |es| == |w.disk| && p in w.own.procs && w.own.procs[p].Idle? && g !in w.own.used then
        w.(own := Own.Apply(w.own, Own.Prepare(p, g)), entries := w.entries[g := es])
      else w
    case Step(a) => Stepped(w, a)
    case Operate(p) => Operated(w, p)
    case Refuse(p) => Refused(w, p)
  }

  function Run(contents: seq<Option<Bytes>>, moves: seq<Move>): World {
    if moves == [] then Start(contents) else Moved(Run(contents, moves[..|moves| - 1]), moves[|moves| - 1])
  }

  // ---- What every step keeps ----

  predicate AllPublished(es: seq<Entry>, was: seq<Option<Bytes>>, disk: seq<Copies>, n: nat)
    requires n <= |es| == |was| == |disk|
  {
    forall k :: 0 <= k < n ==> Published(es[k], was[k], disk[k])
  }

  predicate AllPlain(was: seq<Option<Bytes>>, disk: seq<Copies>, n: nat)
    requires |was| == |disk|
  {
    forall k :: n <= k < |disk| ==> disk[k] == Copies(was[k], None, None)
  }

  predicate AllUnwound(es: seq<Entry>, was: seq<Option<Bytes>>, disk: seq<Copies>, n: nat)
    requires |es| == |was| == |disk|
  {
    forall k :: n <= k < |es| ==> Unwound(es[k], was[k], disk[k])
  }

  predicate AllInterrupted(es: seq<Entry>, was: seq<Option<Bytes>>, disk: seq<Copies>)
    requires |es| == |was| == |disk|
  {
    forall k :: 0 <= k < |es| ==> Interrupted(es[k], was[k], disk[k])
  }

  // The commit marker was linked: what is left to do is removing private copies.
  predicate Sealed(e: Entry, was: Option<Bytes>, c: Copies) {
    Fresh(e, was) && c.current == New(e) && c.displaced.None?
  }

  predicate AllSealed(es: seq<Entry>, was: seq<Option<Bytes>>, disk: seq<Copies>)
    requires |es| == |was| == |disk|
  {
    forall k :: 0 <= k < |es| ==> Sealed(es[k], was[k], disk[k])
  }

  // Behind a shut gate the outputs are as interrupting its promotion may leave them.
  predicate DiskInv(w: World)
    requires |w.was| == |w.disk|
  {
    match w.own.gate
    case None => AllPlain(w.was, w.disk, 0)
    case Some(g) =>
      g in w.entries && |w.entries[g]| == |w.disk| &&
      if g in w.own.committed then AllSealed(w.entries[g], w.was, w.disk)
      else AllInterrupted(w.entries[g], w.was, w.disk)
  }

  // How far the process has come.
  predicate ActorInv(w: World, p: Pid)
    requires Equipped(w, p)
  {
    var es, was, disk, n := Entries(w, p), w.was, w.disk, |w.disk|;
    match w.own.procs[p]
    case Publishing(_) =>
      (match w.work[p]
       case Publish(i, st) =>
         && i < n && AllPublished(es, was, disk, i) && AllPlain(was, disk, i + 1)
         && Publishing(es[i], was[i], disk[i], st)
       case ReadBack(i) => AllPublished(es, was, disk, n)
       case _ => false)
    case Undoing(_) =>
      (match w.work[p]
       case Undo(left, conflict, st) =>
         && left <= n && (left > 0 ==> Undoing(es[left - 1], was[left - 1], conflict, disk[left - 1], st))
         && (!conflict ==> AllUnwound(es, was, disk, left))
       case Sweep(i, half) => AllUnwound(es, was, disk, 0)
       case _ => false)
    case Confirming(g) =>
      && g in w.own.committed
      && (match w.work[p]
          case Confirm(i) => true
          case Sweep(i, half) =>
            && i <= n && (forall k :: 0 <= k < i ==> disk[k].backup.None?)
            && (half ==> i < n && disk[i].backup.None?)
          case _ => false)
    case _ => true
  }

  function Gate(s: Own.State): set<Generation> {
    if s.gate.Some? then {s.gate.value} else {}
  }

  function Generations(calls: seq<Call>): set<Generation> {
    set k | 0 <= k < |calls| :: calls[k].g
  }

  // The calls are those that ever took the gate, each of them once, but for the one that holds it. They
  // did what their journals say, and committed exactly if the marker was linked.
  ghost predicate Accounted(w: World) {
    && w.own.linked == Generations(w.calls) + Gate(w.own) && Generations(w.calls) !! Gate(w.own)
    && (forall k, l :: 0 <= k < l < |w.calls| ==> w.calls[k].g != w.calls[l].g)
    && (forall k :: 0 <= k < |w.calls| ==>
          && w.calls[k].g in w.entries && w.calls[k].entries == w.entries[w.calls[k].g]
          && (w.calls[k].committed <==> w.calls[k].g in w.own.committed))
  }

  ghost predicate Ready(w: World) {
    && Own.Inv(w.own) && |w.was| == |w.disk|
    && forall g :: g in w.own.used ==> g in w.entries && 0 < |w.entries[g]| == |w.disk|
  }

  // Nobody has left an orphan so far: everything is as whole calls leave it.
  ghost predicate Orderly(w: World, first: seq<Option<Bytes>>)
    requires |w.was| == |w.disk|
  {
    && Replay(first, w.calls) == Some(w.was) && Accounted(w) && DiskInv(w)
    && forall p :: Acting(w, p) ==> Equipped(w, p) && ActorInv(w, p)
  }

  ghost predicate Inv(w: World, first: seq<Option<Bytes>>) {
    Ready(w) && (w.own.orphans == {} ==> Orderly(w, first))
  }

  // Without orphans whoever acts is the owner of the gate's journal, so that nobody else does.
  lemma SoleActor(w: World, p: Pid)
    requires Ready(w) && w.own.orphans == {} && Acting(w, p)
    ensures w.own.gate == Some(w.own.procs[p].g)
    ensures !w.own.procs[p].Confirming? ==> w.own.procs[p].g !in w.own.committed
    ensures forall q :: Acting(w, q) ==> q == p
  {
    assert Own.ProcInv(w.own, p);
    forall q | Acting(w, q) ensures q == p { assert Own.ProcInv(w.own, q); }
  }

  // A step after which the gate, the outputs and the acting processes are as before, but for some that stopped.
  lemma QuietKeepsInv(w: World, t: World, first: seq<Option<Bytes>>)
    requires Inv(w, first) && Ready(t)
    requires t.disk == w.disk && t.was == w.was && t.calls == w.calls && t.work == w.work
    requires SameActors(w.own, t.own) && w.own.orphans <= t.own.orphans
    requires forall g :: g in w.own.used ==> g in t.entries && g in w.entries && t.entries[g] == w.entries[g]
    ensures Inv(t, first)
  {
    if t.own.orphans == {} {
      assert t.own.gate.Some? ==> t.own.gate.value in w.own.used;
      forall k | 0 <= k < |w.calls| ensures w.calls[k].g in w.own.used {
        assert w.calls[k].g in Generations(w.calls);
      }
      forall p | Acting(t, p) ensures Equipped(t, p) && ActorInv(t, p) {
        assert Equipped(w, p) && ActorInv(w, p) && Own.ProcInv(w.own, p);
      }
    }
  }

  // A step by which the acting process alone changes its work and the disk.
  lemma OwnWorkKeepsInv(w: World, t: World, p: Pid, first: seq<Option<Bytes>>)
    requires Inv(w, first) && w.own.orphans == {} && Acting(w, p) && Ready(t) && t.own.orphans == {}
    requires t.own.procs - {p} == w.own.procs - {p} && t.calls == w.calls && t.was == w.was && Accounted(t)
    requires DiskInv(t) && (Acting(t, p) ==> Equipped(t, p) && ActorInv(t, p))
    ensures Inv(t, first)
  {
    SoleActor(w, p);
    forall q | Acting(t, q) ensures Equipped(t, q) && ActorInv(t, q) {
      if q != p { assert q in t.own.procs - {p}; assert Acting(w, q); }
    }
  }

  // The same without a step of `LoginOwnership`.
  lemma WorkKeepsInv(w: World, t: World, p: Pid, first: seq<Option<Bytes>>)
    requires Inv(w, first) && Acting(w, p) && t.own == w.own && t.entries == w.entries
    requires t.calls == w.calls && t.was == w.was && |t.disk| == |w.disk|
    requires w.own.orphans == {} ==> DiskInv(t) && Equipped(t, p) && ActorInv(t, p)
    ensures Inv(t, first)
  {
    if w.own.orphans == {} { OwnWorkKeepsInv(w, t, p, first); }
  }

  lemma GiveUpKeepsInv(w: World, p: Pid, first: seq<Option<Bytes>>)
    requires Inv(w, first) && Acting(w, p) && w.own.procs[p].Publishing?
    ensures Inv(GiveUp(w, p), first)
  {
    var t := GiveUp(w, p);
    Own.StepKeepsInv(w.own, Own.Abandon(p));
    if w.own.orphans == {} {
      SoleActor(w, p);
      OwnWorkKeepsInv(w, t, p, first);
    }
  }

  lemma OperatedKeepsInv(w: World, p: Pid, first: seq<Option<Bytes>>)
    requires Inv(w, first)
    ensures Inv(Operated(w, p), first)
  {
    var t := Operated(w, p);
    if !Equipped(w, p) || t == w { return; }
    match w.work[p]
    case Publish(i, st) => PublishKeepsInv(w, p, first);
    case ReadBack(i) => ReadBackKeepsInv(w, p, first);
    case Undo(left, conflict, st) => UndoKeepsInv(w, p, first);
    case Confirm(i) => ConfirmKeepsInv(w, p, first);
    case Sweep(i, half) => SweepKeepsInv(w, p, first);
  }

  lemma PublishKeepsInv(w: World, p: Pid, first: seq<Option<Bytes>>)
    requires Inv(w, first) && Equipped(w, p) && w.work[p].Publish?
    ensures Inv(Operated(w, p), first)
  {
    var t, es, i, st := Operated(w, p), Entries(w, p), w.work[p].i, w.work[p].stage;
    if t == w { return; }
    if PublishTurn(es[i], w.disk[i], st).Stop? {
      GiveUpKeepsInv(w, p, first);
    } else {
      if w.own.orphans == {} {
        SoleActor(w, p);
        PublishTurnStays(w, p);
      }
      WorkKeepsInv(w, t, p, first);
    }
  }

  lemma PublishTurnStays(w: World, p: Pid)
    requires Equipped(w, p) && w.own.procs[p].Publishing? && ActorInv(w, p) && w.work[p].Publish?
    requires !PublishTurn(Entries(w, p)[w.work[p].i], w.disk[w.work[p].i], w.work[p].stage).Stop?
    ensures var t := Operated(w, p);
      Equipped(t, p) && ActorInv(t, p) && AllInterrupted(Entries(t, p), t.was, t.disk)
  {
    var t, es, i, st := Operated(w, p), Entries(w, p), w.work[p].i, w.work[p].stage;
    PublishTurnKeeps(es[i], w.was[i], w.disk[i], st);
    if PublishTurn(es[i], w.disk[i], st).Go? {
      PublishTurnKeeps(es[i], w.was[i], t.disk[i], t.work[p].stage);
    }
    assert ActorInv(t, p);
  }

  lemma ReadBackKeepsInv(w: World, p: Pid, first: seq<Option<Bytes>>)
    requires Inv(w, first) && Equipped(w, p) && w.work[p].ReadBack?
    ensures Inv(Operated(w, p), first)
  {
    var t, es, i := Operated(w, p), Entries(w, p), w.work[p].i;
    if t == w { return; }
    if w.disk[i].current != New(es[i]) {
      GiveUpKeepsInv(w, p, first);
    } else {
      WorkKeepsInv(w, t, p, first);
    }
  }

  lemma UndoKeepsInv(w: World, p: Pid, first: seq<Option<Bytes>>)
    requires Inv(w, first) && Equipped(w, p) && w.work[p].Undo?
    ensures Inv(Operated(w, p), first)
  {
    var t := Operated(w, p);
    if t == w { return; }
    if w.own.orphans == {} {
      SoleActor(w, p);
      assert ActorInv(w, p) && AllInterrupted(Entries(w, p), w.was, w.disk);
      if w.work[p].left > 0 { UndoTurnStays(w, p); }
    }
    WorkKeepsInv(w, t, p, first);
  }

  lemma UndoTurnStays(w: World, p: Pid)
    requires Equipped(w, p) && w.work[p].Undo? && 0 < w.work[p].left <= |w.disk|
    requires w.own.procs[p].Undoing? && ActorInv(w, p) && AllInterrupted(Entries(w, p), w.was, w.disk)
    ensures var t := Operated(w, p);
      Equipped(t, p) && ActorInv(t, p) && AllInterrupted(Entries(t, p), t.was, t.disk)
  {
    var es, i, t := Entries(w, p), w.work[p].left - 1, Operated(w, p);
    UndoTurnKeeps(es[i], w.was[i], w.work[p].conflict, w.disk[i], w.work[p].stage);
    assert t.disk == w.disk[i := UndoTurn(es[i], w.work[p].conflict, w.disk[i], w.work[p].stage).copies];
    assert Interrupted(es[i], t.was[i], t.disk[i]);
  }

  lemma ConfirmKeepsInv(w: World, p: Pid, first: seq<Option<Bytes>>)
    requires Inv(w, first) && Equipped(w, p) && w.work[p].Confirm?
    ensures Inv(Operated(w, p), first)
  {
    var t := Operated(w, p);
    if t == w { return; }
    if t.own == w.own {
      WorkKeepsInv(w, t, p, first);
    } else {
      SteppedKeepsInv(w, Own.Throw(p), first);
    }
  }

  lemma SweepKeepsInv(w: World, p: Pid, first: seq<Option<Bytes>>)
    requires Inv(w, first) && Equipped(w, p) && w.work[p].Sweep?
    ensures Inv(Operated(w, p), first)
  {
    var t := Operated(w, p);
    if t == w { return; }
    if w.own.orphans == {} {
      SoleActor(w, p);
      assert ActorInv(w, p);
      SweepStays(w, p);
    }
    WorkKeepsInv(w, t, p, first);
  }

  lemma SweepStays(w: World, p: Pid)
    requires Equipped(w, p) && w.work[p].Sweep? && !w.own.procs[p].Publishing? && w.work[p].i < |w.disk|
    requires DiskInv(w) && ActorInv(w, p) && w.own.gate == Some(w.own.procs[p].g)
    requires w.own.procs[p].Undoing? ==> w.own.procs[p].g !in w.own.committed
    ensures var t := Operated(w, p); Equipped(t, p) && DiskInv(t) && ActorInv(t, p)
  {
  }

  lemma RefusedKeepsInv(w: World, p: Pid, first: seq<Option<Bytes>>)
    requires Inv(w, first)
    ensures Inv(Refused(w, p), first)
  {
    var t := Refused(w, p);
    if !Equipped(w, p) { return; }
    if w.own.procs[p].Publishing? {
      GiveUpKeepsInv(w, p, first);
    } else if t.own == w.own {
      if w.own.orphans == {} { SoleActor(w, p); }
      WorkKeepsInv(w, t, p, first);
    } else {
      SteppedKeepsInv(w, Own.Throw(p), first);
    }
  }

  lemma CommitKeepsInv(w: World, a: Own.Action, first: seq<Option<Bytes>>)
    requires Inv(w, first) && a.Commit?
    ensures Inv(Stepped(w, a), first)
  {
    var t := Stepped(w, a);
    if t == w { return; }
    Own.StepKeepsInv(w.own, a);
    if w.own.orphans == {} {
      SoleActor(w, a.p);
      OwnWorkKeepsInv(w, t, a.p, first);
    }
  }

  lemma ReleaseKeepsInv(w: World, a: Own.Action, first: seq<Option<Bytes>>)
    requires Inv(w, first) && a.Release?
    ensures Inv(Stepped(w, a), first)
  {
    var t, p := Stepped(w, a), a.p;
    if t == w { return; }
    Own.StepKeepsInv(w.own, a);
    if w.own.orphans == {} {
      SoleActor(w, p);
      ReleaseTaken(w.own, a);
      var call := Call(w.own.procs[p].g, Entries(w, p), w.own.procs[p].Confirming?);
      SweptIsSettled(w, p, call);
      ReplayOneMore(first, w.calls, w.was, call);
      AccountedOnceMore(w, t, call);
      assert forall q :: ActsIn(t.own, q) ==> ActsIn(w.own, q) && q != p;
    }
  }

  lemma ReleaseTaken(s: Own.State, a: Own.Action)
    requires a.Release? && ActsIn(s, a.p) && !s.procs[a.p].Publishing? && s.gate == Some(s.procs[a.p].g)
    ensures var t := Own.Apply(s, a);
      && t.gate == None && t.used == s.used && t.linked == s.linked && t.committed == s.committed
      && t.orphans == s.orphans && !ActsIn(t, a.p) && forall q :: q != a.p && ActsIn(t, q) ==> ActsIn(s, q)
  {
  }

  // Once the private copies are gone the outputs are as the call leaves them.
  lemma SweptIsSettled(w: World, p: Pid, call: Call)
    requires Equipped(w, p) && !w.own.procs[p].Publishing? && w.work[p] == Sweep(|w.disk|, false)
    requires DiskInv(w) && ActorInv(w, p) && w.own.gate == Some(w.own.procs[p].g)
    requires call.entries == Entries(w, p) && call.committed == w.own.procs[p].Confirming?
    ensures Legal(w.was, call) && AllPlain(Settle(w.was, call), w.disk, 0)
  {
  }

  lemma AccountedOnceMore(w: World, t: World, call: Call)
    requires Accounted(w) && w.own.gate == Some(call.g) && t.own.gate == None
    requires t.own.linked == w.own.linked && t.own.committed == w.own.committed && t.entries == w.entries
    requires call.g in w.entries && call.entries == w.entries[call.g]
    requires call.committed <==> call.g in w.own.committed
    requires t.calls == w.calls + [call]
    ensures Accounted(t)
  {
    assert Generations(t.calls) == Generations(w.calls) + {call.g} by {
      forall g | g in Generations(w.calls) ensures g in Generations(t.calls) {
        var k :| 0 <= k < |w.calls| && w.calls[k].g == g;
        assert t.calls[k].g == g;
      }
      assert t.calls[|w.calls|].g == call.g;
    }
    assert forall k :: 0 <= k < |w.calls| ==> w.calls[k].g in Generations(w.calls);
  }

  lemma LinkGateKeepsInv(w: World, a: Own.Action, first: seq<Option<Bytes>>)
    requires Inv(w, first) && a.LinkGate?
    ensures Inv(Stepped(w, a), first)
  {
    var t, p := Stepped(w, a), a.p;
    Own.StepKeepsInv(w.own, a);
    if Acting(w, p) || !Acting(t, p) {
      LinkInVain(w.own, a);
      QuietKeepsInv(w, t, first);
    } else if t.own.orphans == {} {
      LinkTaken(w.own, a);
      SoleActor(t, p);
      assert Equipped(t, p) && AllPlain(t.was, t.disk, 0);
      PromoterStarts(t, p);
      LinkAccounted(w, t);
    }
  }

  lemma LinkAccounted(w: World, t: World)
    requires Accounted(w) && w.own.gate == None && t.own.gate.Some? && t.own.gate.value !in w.own.linked
    requires t.own.linked == w.own.linked + {t.own.gate.value} && t.own.committed == w.own.committed
    requires t.calls == w.calls && t.entries == w.entries
    ensures Accounted(t)
  {
  }

  lemma LinkTaken(s: Own.State, a: Own.Action)
    requires Own.Inv(s) && a.LinkGate? && ActsIn(Own.Apply(s, a), a.p) && !ActsIn(s, a.p)
    ensures var t := Own.Apply(s, a);
      && s.gate == None && t.procs[a.p].Publishing? && t.used == s.used && t.orphans == s.orphans
      && t.gate == Some(t.procs[a.p].g) && t.gate.value !in s.linked
      && t.linked == s.linked + {t.gate.value} && t.committed == s.committed
  {
    assert Own.ProcInv(s, a.p);
  }

  lemma LinkInVain(s: Own.State, a: Own.Action)
    requires a.LinkGate? && (ActsIn(s, a.p) || !ActsIn(Own.Apply(s, a), a.p))
    ensures var t := Own.Apply(s, a); SameActors(s, t) && t.used == s.used && t.orphans == s.orphans
  {
  }

  lemma PromoterStarts(t: World, p: Pid)
    requires Equipped(t, p) && AllPlain(t.was, t.disk, 0) && t.own.gate == Some(t.own.procs[p].g) && 0 < |t.disk|
    requires t.own.procs[p].Publishing? && t.own.procs[p].g !in t.own.committed && t.work[p] == Publish(0, Looking)
    ensures DiskInv(t) && ActorInv(t, p)
  {
  }

  lemma ClaimKeepsInv(w: World, a: Own.Action, first: seq<Option<Bytes>>)
    requires Inv(w, first) && a.Claim?
    ensures Inv(Stepped(w, a), first)
  {
    var t, p := Stepped(w, a), a.p;
    Own.StepKeepsInv(w.own, a);
    if Acting(w, p) || !Acting(t, p) {
      ClaimInVain(w.own, a);
      QuietKeepsInv(w, t, first);
    } else if t.own.orphans == {} {
      ClaimTaken(w.own, a);
      SoleActor(t, p);
      assert Equipped(t, p) && DiskInv(t);
      ClaimantStarts(t, p);
    }
  }

  lemma ClaimTaken(s: Own.State, a: Own.Action)
    requires Own.Inv(s) && a.Claim?
    requires ActsIn(Own.Apply(s, a), a.p) && !ActsIn(s, a.p)
    ensures var t := Own.Apply(s, a);
      && t.gate == s.gate && t.committed == s.committed && t.used == s.used && t.orphans == s.orphans
      && !t.procs[a.p].Publishing?
      && (t.procs[a.p].Confirming? ==> t.procs[a.p].g in t.committed)
  {
  }

  lemma ClaimInVain(s: Own.State, a: Own.Action)
    requires a.Claim?
    requires ActsIn(s, a.p) || !ActsIn(Own.Apply(s, a), a.p)
    ensures var t := Own.Apply(s, a); SameActors(s, t) && t.used == s.used && t.orphans == s.orphans
  {
  }

  lemma ClaimantStarts(t: World, p: Pid)
    requires Equipped(t, p) && DiskInv(t) && t.own.gate == Some(t.own.procs[p].g) && 0 < |t.disk|
    requires !t.own.procs[p].Publishing?
    requires t.own.procs[p].Confirming? <==> t.own.procs[p].g in t.own.committed
    requires t.work[p] == if t.own.procs[p].Undoing? then Undo(|t.disk|, false, Reading) else Confirm(0)
    ensures ActorInv(t, p)
  {
  }

  // Nobody starts to act, and the gate and the commits are as before.
  ghost predicate SameActors(s: Own.State, t: Own.State) {
    && t.gate == s.gate && t.linked == s.linked && t.committed == s.committed
    && forall p :: ActsIn(t, p) ==> p in s.procs && t.procs[p] == s.procs[p]
  }

  lemma QuietAction(s: Own.State, a: Own.Action)
    requires a.Spawn? || a.Die? || a.Throw? || a.DropMarker? || a.DropJournal? || a.ReadGate? || a.ReadName? ||
      a.CheckWriter?
    ensures var t := Own.Apply(s, a); SameActors(s, t) && t.used == s.used && s.orphans <= t.orphans
  {
  }

  lemma SteppedKeepsInv(w: World, a: Own.Action, first: seq<Option<Bytes>>)
    requires Inv(w, first)
    ensures Inv(Stepped(w, a), first)
  {
    match a
    case Prepare(_, _) =>
    case Commit(_) => CommitKeepsInv(w, a, first);
    case Abandon(p) => if Acting(w, p) && w.own.procs[p].Publishing? { GiveUpKeepsInv(w, p, first); }
    case Release(_) => ReleaseKeepsInv(w, a, first);
    case LinkGate(_) => LinkGateKeepsInv(w, a, first);
    case Claim(_, _) => ClaimKeepsInv(w, a, first);
    case _ =>
      Own.StepKeepsInv(w.own, a);
      QuietAction(w.own, a);
      QuietKeepsInv(w, w.(own := Own.Apply(w.own, a)), first);
  }

  lemma MovedKeepsInv(w: World, m: Move, first: seq<Option<Bytes>>)
    requires Inv(w, first)
    ensures Inv(Moved(w, m), first)
  {
    match m
    case Begin(p, g, es) =>
      Own.StepKeepsInv(w.own, Own.Prepare(p, g));
      QuietKeepsInv(w, Moved(w, m), first);
    case Step(a) => SteppedKeepsInv(w, a, first);
    case Operate(p) => OperatedKeepsInv(w, p, first);
    case Refuse(p) => RefusedKeepsInv(w, p, first);
  }

  lemma {:induction false} RunKeepsInv(contents: seq<Option<Bytes>>, moves: seq<Move>)
    ensures Inv(Run(contents, moves), contents)
  {
    if moves != [] {
      RunKeepsInv(contents, moves[..|moves| - 1]);
      MovedKeepsInv(Run(contents, moves[..|moves| - 1]), moves[|moves| - 1], contents);
    }
  }

  // Every interleaving in which nobody left an orphan: with the gate open the outputs are what is left when
  // the promotions that ever took the gate run as wholes, one after the other, each of them once. Those
  // whose commit marker was linked did so on exactly the contents of their snapshot and left all outputs
  // new; the others left everything as it was, but for outputs their snapshot had lost. No private copy
  // is left.
  lemma {:induction false} OpenGateShowsWholeCalls(contents: seq<Option<Bytes>>, moves: seq<Move>)
    requires var w := Run(contents, moves); w.own.gate == None && w.own.orphans == {}
    ensures var w := Run(contents, moves);
      && Replay(contents, w.calls) == Some(w.was) && w.disk == Plain(w.was)
      && Generations(w.calls) == w.own.linked && Accounted(w)
  {
    RunKeepsInv(contents, moves);
  }

  // A promotion that did not commit changes nothing exactly if its snapshot had lost no output.
  lemma UndoneCallIsANoOpUnlessLost(was: seq<Option<Bytes>>, call: Call)
    requires Legal(was, call) && !call.committed
    ensures Settle(was, call) == was <==> NoneLost(call.entries, was)
  {
    if Settle(was, call) == was {
      forall k | 0 <= k < |was| ensures !Lost(call.entries[k], was[k]) {
        assert Settle(was, call)[k] == was[k];
      }
    }
  }

  // No snapshot had lost an output in its turn.
  ghost predicate NothingLost(first: seq<Option<Bytes>>, calls: seq<Call>)
    requires Replay(first, calls).Some?
  {
    calls == [] ||
    var init, last := calls[..|calls| - 1], calls[|calls| - 1];
    NothingLost(first, init) && (!last.committed ==> NoneLost(last.entries, Replay(first, init).value))
  }

  // What the last committed promotion asked for, or what there was at first.
  function Newest(first: seq<Option<Bytes>>, calls: seq<Call>): seq<Option<Bytes>> {
    if calls == [] then first
    else if calls[|calls| - 1].committed then News(calls[|calls| - 1].entries)
    else Newest(first, calls[..|calls| - 1])
  }

  // Then all outputs are what the last committed promotion asked for, never a mixture.
  lemma {:induction false} ReplayIsNewest(first: seq<Option<Bytes>>, calls: seq<Call>)
    requires Replay(first, calls).Some? && NothingLost(first, calls)
    ensures Replay(first, calls).value == Newest(first, calls)
  {
    if calls != [] {
      var init, last := calls[..|calls| - 1], calls[|calls| - 1];
      ReplayIsNewest(first, init);
      if !last.committed { UndoneCallIsANoOpUnlessLost(Replay(first, init).value, last); }
    }
  }

  // Hence, over every interleaving without orphans and without lost outputs, an open gate shows all outputs
  // as the last committed promotion wants them, or all as they were at first.
  lemma {:induction false} OpenGateShowsTheNewest(contents: seq<Option<Bytes>>, moves: seq<Move>)
    requires var w := Run(contents, moves); w.own.gate == None && w.own.orphans == {}
    requires var w := Run(contents, moves); Replay(contents, w.calls).Some? ==> NothingLost(contents, w.calls)
    ensures var w := Run(contents, moves); w.disk == Plain(Newest(contents, w.calls))
  {
    OpenGateShowsWholeCalls(contents, moves);
    ReplayIsNewest(contents, Run(contents, moves).calls);
  }

  // Behind a shut gate a committed promotion is never undone: every output has its new bytes.
  lemma {:induction false} ShutGateKeepsACommit(contents: seq<Option<Bytes>>, moves: seq<Move>)
    requires var s := Run(contents, moves).own; s.orphans == {} && s.gate.Some? && s.gate.value in s.committed
    ensures var w := Run(contents, moves); var g := w.own.gate.value;
      g in w.entries && |w.entries[g]| == |w.disk| &&
      forall k :: 0 <= k < |w.disk| ==> w.disk[k].current == New(w.entries[g][k])
  {
    RunKeepsInv(contents, moves);
  }

  // ---- What an orphan costs ----

  ghost predicate Reachable(contents: seq<Option<Bytes>>, w: World) {
    exists moves :: Run(contents, moves) == w
  }

  lemma {:induction false} Onward(contents: seq<Option<Bytes>>, w: World, m: Move) returns (t: World)
    requires Reachable(contents, w)
    ensures t == Moved(w, m) && Reachable(contents, t)
  {
    t := Moved(w, m);
    var moves :| Run(contents, moves) == w;
    assert (moves + [m])[..|moves|] == moves;
    assert Run(contents, moves + [m]) == t;
  }

  // One promotion of one output that was absent, begun by process 2.
  function Scene(g: Generation, e: Entry, procs: map<Pid, Own.Phase>, committed: bool, c: Copies, work: Work): World {
    var done := if committed then {g} else {};
    World(Own.State(procs, Some(g), map[g := Own.JournalFile(Writer, 2)], done, {g}, {g}, done, {}, {}),
          map[g := [e]], [c], map[2 := work], [], [None])
  }

  function Written(g: Generation, e: Entry): World {
    var procs, journals := map[2 := Own.Preparing(g)], map[g := Own.JournalFile(Writer, 2)];
    World(Own.State(procs, None, journals, {}, {g}, {}, {}, {}, {}),
          map[g := [e]], [Copies(None, None, None)], map[], [], [None])
  }

  lemma JournalWritten(g: Generation, e: Entry)
    ensures Reachable([None], Written(g, e))
  {
    assert Run([None], []) == Start([None]);
    var w := Onward([None], Start([None]), Step(Own.Spawn(2)));
    w := Onward([None], w, Begin(2, g, [e]));
    assert w == Written(g, e);
  }

  lemma GateTaken(g: Generation, e: Entry)
    requires e.before == None
    ensures Reachable([None], Publishes(g, e, Copies(None, None, None), Publish(0, Linking)))
  {
    JournalWritten(g, e);
    var w := Onward([None], Written(g, e), Step(Own.LinkGate(2)));
    assert w == Publishes(g, e, Copies(None, None, None), Publish(0, Looking));
    w := Onward([None], w, Operate(2));
  }

  function Publishes(g: Generation, e: Entry, c: Copies, work: Work): World {
    Scene(g, e, map[2 := Own.Publishing(g)], false, c, work)
  }

  lemma Created(g: Generation, e: Entry)
    requires e.before == None
    ensures Reachable([None], Publishes(g, e, Copies(New(e), None, None), ReadBack(1)))
  {
    GateTaken(g, e);
    var w := Onward([None], Publishes(g, e, Copies(None, None, None), Publish(0, Linking)), Operate(2));
    assert w == Publishes(g, e, Copies(New(e), None, None), ReadBack(0));
    w := Onward([None], w, Operate(2));
  }

  lemma Committed(g: Generation, e: Entry)
    requires e.before == None
    ensures Reachable([None], Confirms(g, e, map[], Sweep(0, true)))
  {
    Created(g, e);
    var w := Onward([None], Publishes(g, e, Copies(New(e), None, None), ReadBack(1)), Step(Own.Commit(2)));
    assert w == Confirms(g, e, map[], Sweep(0, false));
    w := Onward([None], w, Operate(2));
    assert w == Confirms(g, e, map[], Sweep(0, true));
  }

  function Confirms(g: Generation, e: Entry, others: map<Pid, Own.Phase>, work: Work): World {
    Scene(g, e, map[2 := Own.Confirming(g)] + others, true, Copies(New(e), None, None), work)
  }

  lemma Swept(g: Generation, e: Entry)
    requires e.before == None
    ensures Reachable([None], Confirms(g, e, map[3 := Own.Idle], Sweep(1, false)))
  {
    Committed(g, e);
    var w := Onward([None], Confirms(g, e, map[], Sweep(0, true)), Operate(2));
    assert w == Confirms(g, e, map[], Sweep(1, false));
    w := Onward([None], w, Step(Own.Spawn(3)));
    assert w == Confirms(g, e, map[3 := Own.Idle], Sweep(1, false));
  }

  lemma GateSeen(g: Generation, e: Entry)
    requires e.before == None
    ensures Reachable([None], Confirms(g, e, map[3 := Own.SawGate(g)], Sweep(1, false)))
  {
    Swept(g, e);
    var w := Onward([None], Confirms(g, e, map[3 := Own.Idle], Sweep(1, false)), Step(Own.ReadGate(3)));
    assert w == Confirms(g, e, map[3 := Own.SawGate(g)], Sweep(1, false));
  }

  // A recoverer has read the journal's name while the promoter was about to release the gate.
  lemma NameSeen(g: Generation, e: Entry)
    requires e.before == None
    ensures Reachable([None], Confirms(g, e, map[3 := Own.SawName(g, Writer)], Sweep(1, false)))
  {
    GateSeen(g, e);
    var w := Onward([None], Confirms(g, e, map[3 := Own.SawGate(g)], Sweep(1, false)), Step(Own.ReadName(3)));
    assert w == Confirms(g, e, map[3 := Own.SawName(g, Writer)], Sweep(1, false));
  }

  // The gate was released after the commit; whether the marker is still there and whether that is an orphan.
  function Aftermath(g: Generation, e: Entry, procs: map<Pid, Own.Phase>, marked: bool, orphan: bool, holder: Holder,
                     c: Copies, work: map<Pid, Work>): World {
    World(Own.State(procs, None, map[g := Own.JournalFile(holder, 2)], if marked then {g} else {}, {g}, {g}, {g},
                    if orphan then {g} else {}, if holder.Claimant? then {holder.uuid} else {}),
          map[g := [e]], [c], work, [Call(g, [e], true)], [New(e)])
  }

  function Releases(g: Generation, e: Entry, marked: bool): World {
    Aftermath(g, e, map[2 := Own.Releasing(g, marked), 3 := Own.SawName(g, Writer)], marked, false, Writer,
              Copies(New(e), None, None), map[2 := Sweep(1, false)])
  }

  lemma GateOpened(g: Generation, e: Entry)
    requires e.before == None
    ensures Reachable([None], Releases(g, e, true))
  {
    NameSeen(g, e);
    var w := Onward([None], Confirms(g, e, map[3 := Own.SawName(g, Writer)], Sweep(1, false)), Step(Own.Release(2)));
    assert w.was == [New(e)] && w == Releases(g, e, true);
  }

  lemma MarkerDropped(g: Generation, e: Entry)
    requires e.before == None
    ensures Reachable([None], Releases(g, e, false))
  {
    GateOpened(g, e);
    var w := Onward([None], Releases(g, e, true), Step(Own.DropMarker(2)));
    assert w == Releases(g, e, false);
  }

  // The promoter has died, before it removed the journal.
  function Orphaned(g: Generation, e: Entry, phase: Own.Phase): World {
    Aftermath(g, e, map[3 := phase], false, true, Writer, Copies(New(e), None, None), map[2 := Sweep(1, false)])
  }

  lemma Died(g: Generation, e: Entry)
    requires e.before == None
    ensures Reachable([None], Orphaned(g, e, Own.Ready(g, Writer)))
  {
    MarkerDropped(g, e);
    var w := Onward([None], Releases(g, e, false), Step(Own.Die(2)));
    assert w == Orphaned(g, e, Own.SawName(g, Writer));
    w := Onward([None], w, Step(Own.CheckWriter(3)));
    assert w == Orphaned(g, e, Own.Ready(g, Writer));
  }

  // The recoverer has claimed the journal, and undoes.
  function Undoes(g: Generation, e: Entry, stage: Stage): World {
    Aftermath(g, e, map[3 := Own.Undoing(g)], false, true, Claimant(3, 0), Copies(New(e), None, None),
              map[2 := Sweep(1, false), 3 := Undo(1, false, stage)])
  }

  lemma Claimed(g: Generation, e: Entry)
    requires e.before == None
    ensures Reachable([None], Undoes(g, e, Reading))
  {
    Died(g, e);
    var w := Onward([None], Orphaned(g, e, Own.Ready(g, Writer)), Step(Own.Claim(3, 0)));
    assert w == Undoes(g, e, Reading);
  }

  lemma CopiesRead(g: Generation, e: Entry)
    requires e.before == None
    ensures Reachable([None], Undoes(g, e, ReadingDisplaced(New(e), None)))
  {
    Claimed(g, e);
    var w := Onward([None], Undoes(g, e, Reading), Operate(3));
    assert w == Undoes(g, e, ReadingBackup(New(e)));
    w := Onward([None], w, Operate(3));
    assert w == Undoes(g, e, ReadingDisplaced(New(e), None));
  }

  lemma Examined(g: Generation, e: Entry)
    requires e.before == None
    ensures Reachable([None], Undoes(g, e, Displacing(None)))
  {
    CopiesRead(g, e);
    var w := Onward([None], Undoes(g, e, ReadingDisplaced(New(e), None)), Operate(3));
    assert w == Undoes(g, e, Displacing(None));
  }

  // Without the condition on orphans an open gate need not show whole calls: the only promotion committed,
  // and its output is gone.
  lemma OrphanBreaksAnOpenGate(g: Generation, e: Entry) returns (moves: seq<Move>)
    requires e.before == None
    ensures var w := Run([None], moves);
      w.own.gate == None && w.calls == [Call(g, [e], true)] && |w.disk| == 1 && w.disk[0].current == None
  {
    Examined(g, e);
    var w := Onward([None], Undoes(g, e, Displacing(None)), Operate(3));
    moves :| Run([None], moves) == w;
  }
}
