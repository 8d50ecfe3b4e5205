/**
 The private directory that holds the login outputs.

 An output has a public name and three private names derived from it and the generation of the
 promotion under way; private names are gone before the next promotion may start. Every operation
 of `node:fs/promises` that the promotion uses on these names is one method. An operation is
 atomic; it may be refused, and the process may die just before or just after it. Between any two
 operations a program that knows nothing of the protocol may create, replace or remove an output
 (`Interfere`), unless the directory is declared free of such a program.
*/
module LoginDisk {
  import opened Faults

  datatype Bytes = Bytes(octets: seq<bv8>)

  // SHA-256, taken to be injective.
  datatype Digest = Sha256(bytes: Bytes)

  // The private names of an output: `.next`, `.before` and `.rollback`.
  datatype Which = Staged | Backup | Displaced

  function Hash(bytes: Option<Bytes>): Option<Digest> {
    match bytes
    case None => None
    case Some(b) => Some(Sha256(b))
  }

  class Output {
    const env: Environment
    var current: Option<Bytes>
    var staged: Option<Bytes>
    var backup: Option<Bytes>
    var displaced: Option<Bytes>
    // Values the outside program wrote here and did not itself overwrite.
    ghost var claims: set<Bytes>
    // What a process of ours last learned of the output: by reading it, moving it away or linking it.
    ghost var known: Option<Bytes>

    constructor (env: Environment, current: Option<Bytes>)
      ensures this.env == env && this.current == current
      ensures staged == backup == displaced == None && claims == {}
    {
      this.env := env;
      this.current := current;
      this.staged, this.backup, this.displaced := None, None, None;
      this.claims, this.known := {}, current;
    }

    // Whatever the outside program still claims is in place, or was claimed and out of place before.
    twostate predicate Drift()
      reads this
    {
      forall v :: v in claims ==> current == Some(v) || (v in old(claims) && old(current) != Some(v))
    }

    // Any number of writes and removals of the output by the outside program.
    method Interfere()
      modifies this`current, this`claims
      ensures !env.hostile ==> current == old(current) && claims == old(claims)
      ensures Drift()
    {
      var rounds: nat := *;
      while env.hostile && rounds > 0
        invariant !env.hostile ==> current == old(current) && claims == old(claims)
        invariant Drift()
      {
        var bytes: Option<Bytes> := *;
        WriteOutside(bytes);
        rounds := rounds - 1;
      }
    }

    // One such write, or removal.
    method WriteOutside(bytes: Option<Bytes>)
      modifies this`current, this`claims
      ensures current == bytes && Drift()
      ensures bytes.Some? ==> bytes.value in claims
    {
      if current.Some? {
        claims := claims - {current.value};
      }
      current := bytes;
      if bytes.Some? {
        claims := claims + {bytes.value};
      }
    }

    function Get(w: Which): Option<Bytes>
      reads this
    {
      match w
      case Staged => staged
      case Backup => backup
      case Displaced => displaced
    }

    // `loginOutputBytes` of the output: an absent file reads as null.
    method Read() returns (o: Outcome, bytes: Option<Bytes>)
      modifies this`known, env`faults
      ensures o.Done? ==> bytes == current == known
      ensures env.faults >= old(env.faults)
      ensures env.faults == old(env.faults) ==> o.Done?
    {
      var lands;
      o, lands := env.Decide();
      bytes := current;
      if o.Done? { known := current; }
    }

    // `loginOutputBytes` of a private copy.
    method ReadCopy(w: Which) returns (o: Outcome, bytes: Option<Bytes>)
      modifies env`faults
      ensures o.Done? ==> bytes == Get(w)
      ensures env.faults >= old(env.faults)
      ensures env.faults == old(env.faults) ==> o.Done?
    {
      var lands;
      o, lands := env.Decide();
      bytes := Get(w);
    }

    // `rename` of the output to a private name, replacing what is there.
    method MoveTo(w: Which) returns (o: Outcome)
      requires !w.Staged?
      modifies this`current, this`backup, this`displaced, this`known, env`faults
      ensures o.Done? ==> known == None
      ensures
        || (!o.Done? && current == old(current) && backup == old(backup) && displaced == old(displaced))
        || (!o.Failed? && old(current).Some? && current == None &&
            backup == (if w.Backup? then old(current) else old(backup)) &&
            displaced == (if w.Displaced? then old(current) else old(displaced)))
      ensures env.faults >= old(env.faults)
      ensures env.faults == old(env.faults) ==> (o.Done? <==> old(current).Some?) && !o.Crashed?
    {
      if current.None? { return Failed; }
      var lands;
      o, lands := env.Decide();
      if lands {
        if w.Backup? { backup := current; } else { displaced := current; }
        current := None;
      }
      if o.Done? { known := None; }
    }

    // `link` of a private copy to the output, which is never replaced.
    method LinkFrom(w: Which) returns (o: Outcome)
      modifies this`current, this`known, env`faults
      ensures o.Done? ==> known == current
      ensures
        || (!o.Done? && current == old(current))
        || (!o.Failed? && old(current).None? && current == Get(w) && current.Some?)
      ensures env.faults >= old(env.faults)
      ensures env.faults == old(env.faults) ==> (o.Done? <==> old(current).None? && Get(w).Some?) && !o.Crashed?
    {
      if current.Some? || Get(w).None? { return Failed; }
      var lands;
      o, lands := env.Decide();
      if lands {
        current := Get(w);
      }
      if o.Done? { known := current; }
    }

    // `durable` of the staged copy: exclusive creation, then the write and the sync. A refused or
    // interrupted write leaves whatever had reached the disk.
    method Stage(bytes: Bytes) returns (o: Outcome)
      modifies this`staged, env`faults
      ensures o.Done? ==> staged == Some(bytes)
      ensures env.faults >= old(env.faults)
      ensures env.faults == old(env.faults) ==> (o.Done? <==> old(staged).None?) && !o.Crashed?
    {
      if staged.Some? { return Failed; }
      var lands;
      o, lands := env.Decide();
      if lands {
        staged := Some(bytes);
      } else if * {
        var partial: Bytes := *;
        staged := Some(partial);
      }
    }

    // `remove` of a private copy, where an absent file is no error.
    method Remove(w: Which) returns (o: Outcome)
      modifies this`staged, this`backup, this`displaced, env`faults
      ensures
        || (!o.Done? && staged == old(staged) && backup == old(backup) && displaced == old(displaced))
        || (!o.Failed? && staged == (if w.Staged? then None else old(staged)) &&
            backup == (if w.Backup? then None else old(backup)) &&
            displaced == (if w.Displaced? then None else old(displaced)))
      ensures env.faults >= old(env.faults)
      ensures env.faults == old(env.faults) ==> o.Done?
    {
      var lands;
      o, lands := env.Decide();
      if lands {
        match w
        case Staged => staged := None;
        case Backup => backup := None;
        case Displaced => displaced := None;
      }
    }
  }
}
