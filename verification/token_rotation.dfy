/**
 Rotating the access and refresh tokens of a grant: the rotation journal, its recovery, and the
 phase of the authorization record, whose write is what commits a rotation.
*/
module TokenRotation {
  import opened Faults

  datatype Token = Token(text: string)
  datatype Pair = Pair(access: Token, refresh: Token)
  datatype Which = Access | Refresh
  datatype Phase = AwaitingVerification | ExchangeStarted | Unknown | Earlier

  datatype Operation = Forward | Rollback

  // `oauth-rotation.json`. The grant is given by the name of the first entry.
  datatype Journal = Journal(operation: Operation, key: nat, expected: Pair, next: Pair)

  function Part(p: Pair, w: Which): Token {
    if w.Access? then p.access else p.refresh
  }

  // The token is from neither pair.
  predicate Foreign(t: Token, a: Pair, b: Pair, w: Which) {
    t != Part(a, w) && t != Part(b, w)
  }

  const ORDER := [Access, Refresh]

  // Each token is from one of the two pairs.
  predicate Between(p: Pair, a: Pair, b: Pair) {
    && (p.access == a.access || p.access == b.access)
    && (p.refresh == a.refresh || p.refresh == b.refresh)
  }

  // The material files and the record of one authorization.
  class Grant {
    const env: Environment
    var access: Token
    var refresh: Token
    var phase: Phase
    // The pairs the authorization server has handed out.
    var issued: set<Pair>
    // The pair whose issue the record reports.
    ghost var described: Pair

    constructor (env: Environment, pair: Pair)
      ensures this.env == env && access == pair.access && refresh == pair.refresh
      ensures phase == AwaitingVerification && issued == {pair} && described == pair
    {
      this.env := env;
      access, refresh, phase, issued, described := pair.access, pair.refresh, AwaitingVerification, {pair}, pair;
    }

    function Tokens(): Pair
      reads this
    {
      Pair(access, refresh)
    }

    // `replaceOne`: compare, stage, compare again, rename, sync, read back.
    method ReplaceOne(w: Which, expected: Token, next: Token) returns (o: Outcome)
      modifies this`access, this`refresh, env`faults
      ensures if w.Access? then refresh == old(refresh) else access == old(access)
      ensures Part(Tokens(), w) == old(Part(Tokens(), w)) ||
        (old(Part(Tokens(), w)) == expected && Part(Tokens(), w) == next)
      ensures o.Done? ==> old(Part(Tokens(), w)) == expected && Part(Tokens(), w) == next
      ensures env.faults >= old(env.faults)
      ensures env.faults == old(env.faults) ==> !o.Crashed? && (o.Done? <==> old(Part(Tokens(), w)) == expected)
    {
      var lands;
      o, lands := env.Decide();
      if !o.Done? { return; }
      if Part(Tokens(), w) != expected { return Failed; }
      o, lands := env.Decide();
      if lands {
        if w.Access? { access := next; } else { refresh := next; }
      }
      if !o.Done? { return; }
      o, lands := env.Decide();
    }

    // `writeRecord`: the rename may have taken effect although the call then throws.
    method WriteRecord(phase: Phase, ghost pair: Pair) returns (o: Outcome)
      modifies this`phase, this`described, env`faults
      ensures (this.phase == old(this.phase) && described == old(described)) ||
        (this.phase == phase && described == pair)
      ensures o.Done? ==> this.phase == phase && described == pair
      ensures env.faults >= old(env.faults)
      ensures env.faults == old(env.faults) ==> o.Done?
    {
      var lands;
      o, lands := env.Decide();
      if lands {
        this.phase, described := phase, pair;
      }
      if !o.Done? { return; }
      o, lands := env.Decide();
    }
  }

  // No rotation of this grant is under way: its tokens were issued together, and a record that
  // awaits verification reports exactly them.
  ghost predicate Settled(g: Grant)
    reads g
  {
    g.Tokens() in g.issued && (g.phase.AwaitingVerification? ==> g.described == g.Tokens())
  }

  // A rotation of this grant is under way. Under a forward journal a record that awaits verification
  // means the new tokens are already in place.
  ghost predicate InFlight(g: Grant, j: Journal)
    reads g
  {
    && j.expected in g.issued && j.next in g.issued
    && Between(g.Tokens(), j.expected, j.next)
    && (g.phase.AwaitingVerification? ==>
          g.described == (if j.operation.Forward? then j.next else j.expected)
          && (j.operation.Forward? ==> g.Tokens() == j.next))
  }

  // The journal does not know a token of the grant: recovery refuses it.
  ghost predicate Jammed(g: Grant, j: Journal)
    reads g
  {
    !Between(g.Tokens(), j.expected, j.next) && !g.phase.AwaitingVerification?
  }

  // What recovery restores.
  function Target(j: Journal, phase: Phase): Pair {
    if j.operation.Rollback? || phase.AwaitingVerification? then j.next else j.expected
  }

  // The entries of a journal put back, or forward, one by one.
  method Restore(g: Grant, ghost j: Journal, target: Pair) returns (o: Outcome)
    requires InFlight(g, j) && (target == j.expected || target == j.next)
    requires g.phase.AwaitingVerification? ==> g.Tokens() == target
    modifies g`access, g`refresh, g.env`faults
    ensures InFlight(g, j)
    ensures o.Done? ==> g.Tokens() == target
    ensures g.env.faults >= old(g.env.faults)
    ensures g.env.faults == old(g.env.faults) ==> o.Done?
  {
    for i := 0 to |ORDER|
      invariant InFlight(g, j)
      invariant g.phase.AwaitingVerification? ==> g.Tokens() == target
      invariant i >= 1 ==> g.access == target.access
      invariant i >= 2 ==> g.refresh == target.refresh
      invariant g.env.faults >= old(g.env.faults)
    {
      var w := ORDER[i];
      if Part(g.Tokens(), w) != Part(target, w) {
        :- g.ReplaceOne(w, Part(g.Tokens(), w), Part(target, w));
      }
    }
    return Done;
  }

  // The tokens in a reply of the authorization server; it need not rotate the refresh token.
  datatype Reply = Reply(access: Token, refresh: Option<Token>)

  function After(pair: Pair, r: Reply): Pair {
    Pair(r.access, if r.refresh.Some? then r.refresh.value else pair.refresh)
  }

  // Each token is as at the start, or was the expected one and is now the next one.
  predicate Advanced(start: Pair, now: Pair, expected: Pair, next: Pair) {
    && (now.access == start.access || (start.access == expected.access && now.access == next.access))
    && (now.refresh == start.refresh || (start.refresh == expected.refresh && now.refresh == next.refresh))
  }

  // Each token is as at the start, or was one of the two the journal knows and still is.
  predicate Traced(start: Pair, now: Pair, expected: Pair, next: Pair) {
    && (now.access == start.access || !(Foreign(start.access, expected, next, Access) ||
                                        Foreign(now.access, expected, next, Access)))
    && (now.refresh == start.refresh || !(Foreign(start.refresh, expected, next, Refresh) ||
                                          Foreign(now.refresh, expected, next, Refresh)))
  }

  // What the undo loop leaves where it removes the journal. If the tokens were not the expected ones to
  // begin with, it takes a token that equals the next one for one it has put there itself.
  function Leaves(start: Pair, expected: Pair, next: Pair): Pair {
    if start.access != expected.access then
      if start.access == next.access then Pair(expected.access, start.refresh) else start
    else
      if start.refresh == next.refresh then expected else start
  }

  // Neither the undo loop nor a recovery from its journal ends in tokens that were not issued together.
  predicate Answerable(issued: set<Pair>, start: Pair, expected: Pair, next: Pair) {
    || start == expected
    || (Leaves(start, expected, next) in issued && (Between(start, expected, next) ==> expected in issued))
  }

  // The loop of `replaceProtectedStandardMcpMaterials`. `completed` counts the entries begun.
  method Advance(g: Grant, expected: Pair, next: Pair) returns (o: Outcome, completed: nat)
    modifies g`access, g`refresh, g.env`faults
    ensures completed <= |ORDER| && (completed == 0 ==> o.Done?)
    ensures Advanced(old(g.Tokens()), g.Tokens(), expected, next)
    ensures completed <= 1 ==> g.refresh == old(g.refresh)
    ensures completed == 2 ==> old(g.access) == expected.access && g.access == next.access
    ensures o.Done? ==> old(g.Tokens()) == expected && g.Tokens() == next
    ensures g.env.faults >= old(g.env.faults)
    ensures g.env.faults == old(g.env.faults) ==> !o.Crashed? && (o.Done? <==> old(g.Tokens()) == expected)
    ensures g.env.faults == old(g.env.faults) && o.Failed? ==> var w := ORDER[completed - 1];
      Part(g.Tokens(), w) == old(Part(g.Tokens(), w)) != Part(expected, w)
  {
    completed, o := 0, Done;
    while completed < |ORDER| && o.Done?
      invariant completed <= |ORDER| && (completed == 0 ==> o.Done?)
      invariant Advanced(old(g.Tokens()), g.Tokens(), expected, next)
      invariant o.Done? && completed >= 1 ==> old(g.access) == expected.access && g.access == next.access
      invariant o.Done? && completed >= 2 ==> old(g.refresh) == expected.refresh && g.refresh == next.refresh
      invariant completed <= 1 ==> g.refresh == old(g.refresh)
      invariant completed == 2 ==> old(g.access) == expected.access && g.access == next.access
      invariant completed == 0 ==> g.access == old(g.access)
      invariant g.env.faults >= old(g.env.faults)
      invariant g.env.faults == old(g.env.faults) ==> !o.Crashed?
      invariant g.env.faults == old(g.env.faults) && o.Failed? ==> var w := ORDER[completed - 1];
        Part(g.Tokens(), w) == old(Part(g.Tokens(), w)) != Part(expected, w)
    {
      var w := ORDER[completed];
      completed := completed + 1;
      o := g.ReplaceOne(w, Part(expected, w), Part(next, w));
    }
  }

  // Each token in this range is from one of the two pairs.
  predicate KnownFrom(p: Pair, expected: Pair, next: Pair, from: nat, to: nat) {
    && (from <= 0 < to ==> !Foreign(p.access, expected, next, Access))
    && (from <= 1 < to ==> !Foreign(p.refresh, expected, next, Refresh))
  }

  // The loop that undoes it, last entry first. It goes on past an entry it cannot put back.
  method Retreat(g: Grant, expected: Pair, next: Pair, completed: nat) returns (o: Outcome, undone: bool)
    requires 0 < completed <= |ORDER|
    modifies g`access, g`refresh, g.env`faults
    ensures Traced(old(g.Tokens()), g.Tokens(), expected, next) && !o.Failed?
    ensures completed == 1 ==> g.refresh == old(g.refresh)
    ensures o.Done? && undone ==>
      g.access == expected.access && !Foreign(old(g.access), expected, next, Access)
    ensures o.Done? && undone && completed == 2 ==>
      g.refresh == expected.refresh && !Foreign(old(g.refresh), expected, next, Refresh)
    ensures g.env.faults >= old(g.env.faults)
    ensures g.env.faults == old(g.env.faults) ==> !o.Crashed?
    ensures g.env.faults == old(g.env.faults) && KnownFrom(old(g.Tokens()), expected, next, 0, completed) ==> undone
  {
    undone := true;
    var i := completed;
    while i > 0
      invariant 0 <= i <= completed
      invariant Traced(old(g.Tokens()), g.Tokens(), expected, next)
      invariant i >= 1 ==> g.access == old(g.access)
      invariant completed == 1 || i == 2 ==> g.refresh == old(g.refresh)
      invariant undone && i == 0 ==> g.access == expected.access && !Foreign(old(g.access), expected, next, Access)
      invariant undone && i <= 1 && completed == 2 ==>
        g.refresh == expected.refresh && !Foreign(old(g.refresh), expected, next, Refresh)
      invariant g.env.faults >= old(g.env.faults)
      invariant g.env.faults == old(g.env.faults) && KnownFrom(old(g.Tokens()), expected, next, i, completed) ==> undone
    {
      i := i - 1;
      var w := ORDER[i];
      var lands;
      o, lands := g.env.Decide();
      if o.Crashed? { return; }
      if o.Failed? {
        undone := false;
      } else if Part(g.Tokens(), w) != Part(expected, w) {
        if Part(g.Tokens(), w) != Part(next, w) {
          undone := false;
        } else {
          o := g.ReplaceOne(w, Part(next, w), Part(expected, w));
          if o.Crashed? { return; }
          if o.Failed? { undone := false; }
        }
      }
    }
    o := Done;
  }

  // Both loops: the tokens are replaced, or put back, or the journal is needed to tell.
  method Exchange(g: Grant, expected: Pair, next: Pair) returns (o: Outcome, undone: bool)
    modifies g`access, g`refresh, g.env`faults
    ensures Traced(old(g.Tokens()), g.Tokens(), expected, next)
    ensures o.Done? ==> old(g.Tokens()) == expected && g.Tokens() == next
    ensures o.Failed? && undone ==> g.Tokens() in {old(g.Tokens()), Leaves(old(g.Tokens()), expected, next)}
    ensures g.env.faults >= old(g.env.faults)
    ensures g.env.faults == old(g.env.faults) ==> !o.Crashed? && (o.Done? <==> old(g.Tokens()) == expected)
    ensures g.env.faults == old(g.env.faults) && o.Failed? ==>
      if undone then g.Tokens() == Leaves(old(g.Tokens()), expected, next) != old(g.Tokens())
      else Leaves(old(g.Tokens()), expected, next) == old(g.Tokens()) && !Between(g.Tokens(), expected, next)
  {
    var completed;
    undone := false;
    o, completed := Advance(g, expected, next);
    if o.Failed? {
      o, undone := Retreat(g, expected, next, completed);
      if o.Done? { o := Failed; }
    }
  }

  class Host {
    const env: Environment
    const grants: seq<Grant>
    var journal: Option<Journal>

    constructor (env: Environment, grants: seq<Grant>)
      requires forall i, k :: 0 <= i < k < |grants| ==> grants[i] != grants[k]
      requires forall i :: 0 <= i < |grants| ==> grants[i].env == env && Settled(grants[i])
      ensures this.env == env && this.grants == grants && Inv() && Recoverable()
    {
      this.env, this.grants, this.journal := env, grants, None;
    }

    ghost predicate Valid()
      reads this
    {
      && (forall i, k :: 0 <= i < k < |grants| ==> grants[i] != grants[k])
      && (forall i :: 0 <= i < |grants| ==> grants[i].env == env)
      && (journal.Some? ==> journal.value.key < |grants|)
    }

    ghost predicate OthersSettled(key: int)
      reads this, grants
    {
      forall i :: 0 <= i < |grants| && i != key ==> Settled(grants[i])
    }

    // What every operation keeps, however it ends.
    ghost predicate Inv()
      reads this, grants
    {
      && Valid()
      && match journal
         case None => OthersSettled(-1)
         case Some(j) => OthersSettled(j.key) && (InFlight(grants[j.key], j) || Jammed(grants[j.key], j))
    }

    ghost predicate Recoverable()
      reads this, grants
    {
      Valid() && (journal.Some? ==> InFlight(grants[journal.value.key], journal.value))
    }

    // `removeRotationJournal`
    method RemoveJournal() returns (o: Outcome)
      modifies this`journal, env`faults
      ensures journal == old(journal) || journal == None
      ensures o.Done? ==> journal == None
      ensures env.faults >= old(env.faults)
      ensures env.faults == old(env.faults) ==> o.Done?
    {
      var lands;
      o, lands := env.Decide();
      if lands { journal := None; }
      if !o.Done? { return; }
      o, lands := env.Decide();
    }

    // `writeRotationJournal`
    method WriteJournal(j: Journal, allowExisting: bool) returns (o: Outcome)
      modifies this`journal, env`faults
      ensures journal == old(journal) || (journal == Some(j) && (allowExisting || old(journal).None?))
      ensures o.Done? ==> journal == Some(j) && (allowExisting || old(journal).None?)
      ensures env.faults >= old(env.faults)
      ensures env.faults == old(env.faults) ==> !o.Crashed? && (o.Done? <==> allowExisting || old(journal).None?)
    {
      var lands;
      o, lands := env.Decide();
      if !o.Done? { return; }
      if !allowExisting && journal.Some? { return Failed; }
      o, lands := env.Decide();
      if lands { journal := Some(j); }
      if !o.Done? { return; }
      o, lands := env.Decide();
    }

    // `recoverProtectedStandardMcpMaterialRotation`
    method Recover() returns (o: Outcome)
      requires Inv()
      modifies this`journal, grants, env`faults
      ensures Inv()
      ensures old(Recoverable()) ==> Recoverable()
      ensures forall i :: 0 <= i < |grants| ==> grants[i].issued == old(grants[i].issued)
      ensures forall i :: 0 <= i < |grants| && (old(journal).Some? ==> i != old(journal).value.key) ==>
        grants[i].Tokens() == old(grants[i].Tokens()) && grants[i].phase == old(grants[i].phase)
      ensures forall i :: 0 <= i < |grants| ==> grants[i].phase in {old(grants[i].phase), Unknown}
      ensures o.Done? ==> journal == None
      ensures !old(Recoverable()) ==> !o.Done? && journal == old(journal)
      ensures !old(Recoverable()) ==> grants[journal.value.key].Tokens() == old(grants[journal.value.key].Tokens())
      ensures old(journal).Some? && journal.None? ==>
        var g := grants[old(journal).value.key];
        g.Tokens() == Target(old(journal).value, old(g.phase)) && (g.phase == old(g.phase) || g.phase == Unknown)
      ensures env.faults >= old(env.faults)
      ensures env.faults == old(env.faults) ==> (o.Done? <==> old(Recoverable()))
    {
      var lands;
      o, lands := env.Decide();
      if !o.Done? { return; }
      if journal.None? { return Done; }
      var j := journal.value;
      var g := grants[j.key];
      if !Between(g.Tokens(), j.expected, j.next) { return Failed; }
      var target := Target(j, g.phase);
      if j.operation.Rollback? && g.phase.AwaitingVerification? {
        :- g.WriteRecord(Unknown, g.described);
      }
      :- Restore(g, j, target);
      o := RemoveJournal();
    }

    // The tokens of grant `k` once recovery, run while its record says that an exchange was started,
    // has dealt with whatever journal there is.
    function Reverted(k: nat): Pair
      requires k < |grants|
      reads this, grants
    {
      if journal.Some? && journal.value.key == k then Target(journal.value, ExchangeStarted) else grants[k].Tokens()
    }

    // `replaceProtectedStandardMcpMaterials` under its lock.
    method Swap(operation: Operation, k: nat, g: Grant, expected: Pair, next: Pair) returns (o: Outcome)
      requires Inv() && k < |grants| && g == grants[k] && next in g.issued
      requires operation.Forward? ==> !g.phase.AwaitingVerification?
      requires operation.Rollback? ==>
        g.Tokens() == expected && expected in g.issued && (journal.Some? ==> journal.value.key == k)
      requires operation.Rollback? && g.phase.AwaitingVerification? ==> g.described == expected
      modifies this`journal, g`access, g`refresh, env`faults
      ensures Valid() && (old(Answerable(g.issued, g.Tokens(), expected, next)) ==> Inv())
      ensures old(Recoverable()) && old(g.Tokens()) == expected ==> Recoverable()
      ensures o.Done? ==> journal == Some(Journal(operation, k, expected, next))
      ensures o.Done? ==> old(g.Tokens()) == expected && g.Tokens() == next
      ensures env.faults >= old(env.faults)
      ensures env.faults == old(env.faults) && old(journal).None? ==>
        !o.Crashed? && (o.Done? <==> old(g.Tokens()) == expected)
      ensures env.faults == old(env.faults) && old(journal).None? && old(g.Tokens()) != expected ==>
        Misled(g, old(g.Tokens()), expected, next)
    {
      o := WriteJournal(Journal(operation, k, expected, next), operation.Rollback?);
      if !o.Done? { return; }
      var undone;
      o, undone := Exchange(g, expected, next);
      if o.Failed? && undone {
        :- RemoveJournal();
        return Failed;
      }
    }

    // What becomes of a swap that found other tokens than it expected: a journal that recovery refuses,
    // or no journal and what the undo loop leaves.
    ghost predicate Misled(g: Grant, start: Pair, expected: Pair, next: Pair)
      reads this, grants, g
    {
      if Leaves(start, expected, next) == start then !Recoverable()
      else journal.None? && g.Tokens() == Leaves(start, expected, next)
    }

    // Recovery refuses, or what it restores is where the loops may start from.
    ghost predicate Harmless(k: nat, pair: Pair, reply: Reply)
      requires k < |grants|
      reads this, grants
    {
      Recoverable() ==>
        Answerable(grants[k].issued + {After(pair, reply)}, Reverted(k), pair, After(pair, reply))
    }

    // Recovery followed by the rotation itself, as `replaceProtectedStandardMcpMaterials` does both.
    method Install(k: nat, g: Grant, pair: Pair, reply: Reply) returns (o: Outcome)
      requires Inv() && k < |grants| && g == grants[k]
      requires !g.phase.AwaitingVerification?
      modifies this`journal, grants, env`faults
      ensures Valid() && (old(Harmless(k, pair, reply)) ==> Inv())
      ensures o.Done? ==> Inv() && journal == Some(Journal(Forward, k, pair, After(pair, reply)))
      ensures o.Done? ==> g.Tokens() == After(pair, reply) && g.Tokens() in g.issued && pair in g.issued
      ensures !g.phase.AwaitingVerification? && g.issued == old(g.issued) + {After(pair, reply)}
      ensures old(Recoverable()) && old(Reverted(k)) == pair ==> Recoverable()
      ensures env.faults >= old(env.faults)
      ensures env.faults == old(env.faults) && old(Recoverable()) ==>
        if old(Reverted(k)) == pair then o.Done?
        else o.Failed? && Misled(g, old(Reverted(k)), pair, After(pair, reply))
    {
      ghost var issued := g.issued;
      g.issued := g.issued + {After(pair, reply)};
      :- Recover();
      assert Settled(g) && g.Tokens() in issued;
      o := Swap(Forward, k, g, pair, After(pair, reply));
    }

    // The record write that commits a rotation, and the removal of its journal.
    method Adopt(k: nat, g: Grant, ghost pair: Pair) returns (o: Outcome)
      requires Inv() && k < |grants| && g == grants[k]
      requires journal == Some(Journal(Forward, k, pair, g.Tokens())) && InFlight(g, journal.value)
      modifies this`journal, g`phase, g`described, env`faults
      ensures Inv() && Recoverable()
      ensures journal.Some? ==> journal.value.key == k
      ensures g.phase.AwaitingVerification? ==> g.described == g.Tokens()
      ensures env.faults >= old(env.faults)
      ensures env.faults == old(env.faults) ==> o.Done? && journal.None? && g.phase.AwaitingVerification?
    {
      var lands;
      o, lands := env.Decide();
      if !o.Done? { return; }
      :- g.WriteRecord(AwaitingVerification, g.Tokens());
      :- RemoveJournal();
      o, lands := env.Decide();
    }

    // The `try` block of `refreshRecord`. `pair` are the tokens read before the exchange; a missing
    // reply is a failed exchange. `rotated` tells whether the new tokens were put in place.
    method Rotate(k: nat, g: Grant, pair: Pair, reply: Option<Reply>) returns (o: Outcome, rotated: bool)
      requires Inv() && k < |grants| && g == grants[k]
      requires !g.phase.AwaitingVerification?
      modifies this`journal, grants, env`faults
      ensures Valid() && (old(reply.None? || Harmless(k, pair, reply.value)) ==> Inv())
      ensures !rotated ==> !g.phase.AwaitingVerification?
      ensures o.Done? ==> rotated
      ensures rotated ==> Inv() && g.Tokens() in g.issued && pair in g.issued
      ensures rotated ==> (journal.Some? ==> journal.value.key == k)
      ensures rotated && g.phase.AwaitingVerification? ==> g.described == g.Tokens()
      ensures g.issued <= old(g.issued) + if reply.Some? then {After(pair, reply.value)} else {}
      ensures old(Recoverable()) && old(Reverted(k)) == pair ==> Recoverable()
      ensures env.faults >= old(env.faults)
      ensures env.faults == old(env.faults) && old(Recoverable()) && reply.Some? ==>
        if old(Reverted(k)) == pair
        then o.Done? && journal.None? && g.phase.AwaitingVerification? && g.Tokens() == After(pair, reply.value)
        else o.Failed? && !rotated && Misled(g, old(Reverted(k)), pair, After(pair, reply.value))
    {
      rotated := false;
      var lands;
      o, lands := env.Decide();
      if !o.Done? { return; }
      if reply.None? { return Failed, false; }
      :- Install(k, g, pair, reply.value);
      rotated := true;
      o := Adopt(k, g, pair);
    }

    // With this reply the undo loop, which starts from what recovery has restored, would leave tokens
    // that were never issued together.
    predicate Tears(k: nat, reply: Option<Reply>)
      requires k < |grants|
      reads this, grants
    {
      reply.Some? &&
      var g := grants[k];
      var next := After(g.Tokens(), reply.value);
      Leaves(Reverted(k), g.Tokens(), next) !in g.issued + {next}
    }

    // No other reply does any harm: half-rolled-back tokens as the expected ones are among the tearing
    // cases, because then exactly one of them differs from what recovery restores.
    lemma OtherwiseHarmless(k: nat, reply: Reply)
      requires Inv() && k < |grants| && !Tears(k, Some(reply))
      ensures Harmless(k, grants[k].Tokens(), reply)
    {
    }

    // `refreshRecord`. A failure is swallowed: the tokens are put back if they were replaced, and
    // the record is marked unknown, either of which may itself fail.
    method Refresh(k: nat, g: Grant, reply: Option<Reply>) returns (o: Outcome)
      requires Inv() && k < |grants| && g == grants[k]
      modifies this`journal, grants, env`faults
      ensures !old(Recoverable()) || !old(Tears(k, reply)) ==> Inv()
      ensures old(Recoverable()) && (old(g.phase).AwaitingVerification? ==> old(Steady(k))) ==> Recoverable()
      ensures g.issued <= old(g.issued) + if reply.Some? then {old(After(g.Tokens(), reply.value))} else {}
      ensures env.faults >= old(env.faults)
      ensures
        var undisturbed := env.faults == old(env.faults) && old(Recoverable());
        undisturbed && old(g.phase).AwaitingVerification? && reply.Some? ==>
        if old(Steady(k))
        then journal.None? && g.phase.AwaitingVerification? && g.Tokens() == old(After(g.Tokens(), reply.value))
        else Misled(g, old(Reverted(k)), old(g.Tokens()), old(After(g.Tokens(), reply.value)))
      ensures
        var undisturbed := env.faults == old(env.faults) && old(Recoverable());
        undisturbed && old(g.phase).AwaitingVerification? && old(Tears(k, reply)) ==>
          journal.None? && g.Tokens() !in g.issued && !Inv()
    {
      if !g.phase.AwaitingVerification? { return Done; }
      var pair := g.Tokens();
      if reply.Some? && !Tears(k, reply) { OtherwiseHarmless(k, reply.value); }
      :- Begin(k, g);
      var rotated;
      o, rotated := Rotate(k, g, pair, reply);
      if o.Failed? {
        o := Compensate(k, g, pair, rotated);
      }
    }

    // The durable mark that an exchange was started.
    method Begin(k: nat, g: Grant) returns (o: Outcome)
      requires Inv() && k < |grants| && g == grants[k]
      modifies g`phase, g`described, env`faults
      ensures Inv() && (old(Recoverable()) ==> Recoverable())
      ensures o.Done? ==> g.phase == ExchangeStarted
      ensures env.faults >= old(env.faults)
      ensures env.faults == old(env.faults) ==> o.Done?
    {
      var lands;
      o, lands := env.Decide();
      if !o.Done? { return; }
      :- g.WriteRecord(ExchangeStarted, g.described);
      o, lands := env.Decide();
    }

    // The `catch` block.
    method Compensate(k: nat, g: Grant, pair: Pair, rotated: bool) returns (o: Outcome)
      requires Valid() && k < |grants| && g == grants[k]
      requires if rotated then Inv() else !g.phase.AwaitingVerification?
      requires rotated ==> g.Tokens() in g.issued && pair in g.issued && (journal.Some? ==> journal.value.key == k)
      requires rotated && g.phase.AwaitingVerification? ==> g.described == g.Tokens()
      modifies this`journal, grants, env`faults
      ensures (old(Inv()) ==> Inv()) && (old(Recoverable()) ==> Recoverable())
      ensures g.issued == old(g.issued)
      ensures !rotated ==> journal == old(journal) && g.Tokens() == old(g.Tokens())
      ensures !rotated && !old(Recoverable()) ==> !Recoverable()
      ensures env.faults >= old(env.faults)
    {
      if rotated {
        o := Swap(Rollback, k, g, g.Tokens(), pair);
        if o.Crashed? { return; }
      }
      o := g.WriteRecord(Unknown, g.described);
      if o.Failed? { o := Done; }
    }

    // No journal of this grant is waiting that recovery, run once the record has left
    // `awaiting_verification`, would act on.
    ghost predicate Steady(k: nat)
      requires k < |grants|
      reads this, grants
    {
      Reverted(k) == grants[k].Tokens()
    }
  }

  // A refresh with an arbitrary reply of the server that does not tear the pair, or none.
  method AnyRefresh(h: Host, k: nat) returns (o: Outcome)
    requires h.Inv() && k < |h.grants|
    modifies h`journal, h.grants, h.env`faults
    ensures h.Inv()
    ensures old(h.Recoverable()) && old(h.Steady(k)) ==> h.Recoverable()
  {
    var access: Token, refresh: Option<Token> := *, *;
    var reply := Reply(access, refresh);
    o := h.Refresh(k, h.grants[k], if h.Tears(k, Some(reply)) then None else Some(reply));
  }

  // Any number of restarts and refreshes, each of which may fail or die at any step, in any order.
  // Without a journal the tokens of every grant were issued together, and a record that awaits
  // verification reports the ones on disk; under a forward journal it means they are already new.
  method AnyHistory(h: Host)
    requires h.Inv()
    modifies h`journal, h.grants, h.env`faults
    ensures h.Inv()
    ensures h.journal.None? ==> forall i :: 0 <= i < |h.grants| ==> Settled(h.grants[i])
    ensures h.journal.Some? && h.journal.value.operation.Forward? ==>
      h.grants[h.journal.value.key].phase.AwaitingVerification? ==>
      h.grants[h.journal.value.key].Tokens() == h.journal.value.next
  {
    var calls: nat := *;
    while calls > 0
      invariant h.Inv()
    {
      var k: nat, o := *, Done;
      if k < |h.grants| {
        o := AnyRefresh(h, k);
      } else {
        o := h.Recover();
      }
      calls := calls - 1;
    }
  }

  // If a refresh is only ever started once recovery has succeeded, recovery never meets a token it
  // does not know, and so always succeeds when left undisturbed.
  method RecoveringHistory(h: Host)
    requires h.Inv() && h.Recoverable()
    modifies h`journal, h.grants, h.env`faults
    ensures h.Inv() && h.Recoverable()
  {
    var calls: nat := *;
    while calls > 0
      invariant h.Inv() && h.Recoverable()
    {
      var k: nat := *;
      var o := h.Recover();
      if o.Done? && k < |h.grants| {
        o := AnyRefresh(h, k);
      }
      calls := calls - 1;
    }
  }

  // What is left when removing the journal, rolling back and marking the record unknown have all
  // failed: a refresh started from here jams recovery for good (`Host.Refresh`).
  lemma LeftoverForwardJournalIsUnsteady(h: Host, k: nat)
    requires h.Inv() && k < |h.grants| && h.grants[k].phase.AwaitingVerification?
    requires h.journal.Some? && h.journal.value.key == k && h.journal.value.operation.Forward?
    ensures h.Steady(k) <==> h.journal.value.expected == h.journal.value.next
  {
  }

  // Which replies tear the pair then: those whose access token is the one recovery reverts to, if both
  // tokens change and the mixture was never issued. In a steady state none does.
  lemma TearingReplies(h: Host, k: nat, reply: Reply)
    requires h.Inv() && h.Recoverable() && k < |h.grants|
    ensures h.Steady(k) ==> !h.Tears(k, Some(reply))
    ensures var g := h.grants[k]; var was := h.Reverted(k);
      g.Tokens() in g.issued ==>
        (h.Tears(k, Some(reply)) <==>
           && was.access != g.access && was.refresh != g.refresh && reply.access == was.access
           && Pair(g.access, was.refresh) !in g.issued)
  {
  }

  // How that happens: the rotation commits, and then the removal of its journal, the rollback and the
  // mark are all refused, so that nothing more takes effect. The next refresh leaves a journal that
  // recovery refuses.
  method RefusedCleanupJamsTheNextRefresh(h: Host, k: nat, g: Grant, first: Reply, second: Reply)
    requires h.Inv() && h.journal.None? && k < |h.grants| && g == h.grants[k] && g.phase.AwaitingVerification?
    requires var next := After(g.Tokens(), first);
      g.Tokens() != next && Leaves(g.Tokens(), next, After(next, second)) == g.Tokens()
    modifies h`journal, h.grants, h.env`faults
    ensures h.Inv() && (h.env.faults == old(h.env.faults) ==> !h.Recoverable())
  {
    var pair := g.Tokens();
    var o := h.Begin(k, g);
    if !o.Done? { return; }
    o := h.Install(k, g, pair, first);
    if !o.Done? { return; }
    o := g.WriteRecord(AwaitingVerification, g.Tokens());
    if !o.Done? { return; }
    LeftoverForwardJournalIsUnsteady(h, k);
    o := h.Refresh(k, g, Some(second));
  }
  // How the pair tears: the same leftover journal, and a reply that repeats the access token of the pair
  // it reverts to. The undo loop takes that token for the one it was about to write and puts the
  // other generation's token in its place, then removes the journal.
  method RepeatedAccessTokenTearsThePair(h: Host, k: nat, g: Grant, first: Reply, second: Reply)
    requires h.Inv() && h.journal.None? && k < |h.grants| && g == h.grants[k] && g.phase.AwaitingVerification?
    requires var pair := g.Tokens(); var next := After(pair, first);
      && pair.access != next.access && pair.refresh != next.refresh && second.access == pair.access
      && Pair(next.access, pair.refresh) !in g.issued
    modifies h`journal, h.grants, h.env`faults
    ensures h.env.faults == old(h.env.faults) ==>
      && h.journal.None? && g.Tokens() == Pair(first.access, old(g.refresh)) && g.Tokens() !in g.issued
  {
    var pair := g.Tokens();
    var o := h.Begin(k, g);
    if !o.Done? { return; }
    o := h.Install(k, g, pair, first);
    if !o.Done? { return; }
    o := g.WriteRecord(AwaitingVerification, g.Tokens());
    if !o.Done? { return; }
    o := h.Refresh(k, g, Some(second));
  }
}
