/**
 The authorizations of a host: `begin`, `callback`, `confirm` and `refresh` over the record, state,
 pointer and material files. Commands run one at a time; each may be cut short at any step.
*/
module Authorization {
  import opened Faults

  datatype Phase = AwaitingCallback | AwaitingConfirmation | ExchangeStarted | AwaitingVerification | Denied | Unknown

  // `handle` is what a callback names: the random state or, for a PAT binding, the hash of its id.
  datatype Record = Record(handle: nat, phase: Phase, expiresAt: nat, request: nat)

  datatype Pointer = Pointer(key: nat, expiresAt: nat)
  datatype Binding = Binding(handle: nat, expiresAt: nat)

  // A file created exclusively and then written: cut short, it stays behind with less than its text.
  datatype File<+T> = Whole(text: T) | Torn

  // What is sent to the authorization server on confirmation.
  datatype Request = Exchange(code: string, verifier: string) | Claim(handle: nat)

  const LIFETIME := 600_000

  // `publishMaterial`: an existing file is accepted if it already holds the value.
  method Publish<T(==)>(env: Environment, file: Option<File<T>>, value: T) returns (o: Outcome, file': Option<File<T>>)
    modifies env`faults
    ensures file' == file || (file in {None, Some(Torn)} && file' in {Some(Torn), Some(Whole(value))})
    ensures o.Done? ==> file' == Some(Whole(value))
    ensures env.faults >= old(env.faults)
    ensures env.faults == old(env.faults) && file in {None, Some(Whole(value))} ==> o.Done?
  {
    file' := file;
    var lands;
    o, lands := env.Decide();
    if !o.Done? { return; }
    if file.Some? {
      var coincides := *;
      if file.value.Torn? && coincides {
        file' := Some(Whole(value)); // What it was cut to happens to be this value.
      }
      if file' != Some(Whole(value)) { return Failed, file'; }
    } else {
      file' := Some(Torn);
      o, lands := env.Decide();
      if !o.Done? { return; }
      file' := Some(Whole(value));
    }
    o, lands := env.Decide();
  }

  // What has happened to an authorization: URLs returned, callbacks recorded, a refusal, requests sent.
  datatype Past = Past(offered: seq<Option<string>>, accepted: seq<Option<string>>, denied: bool, sent: seq<Request>)

  // Nothing of it is taken back.
  ghost predicate Later(a: Past, b: Past) {
    a.offered <= b.offered && a.accepted <= b.accepted && (a.denied ==> b.denied) && a.sent <= b.sent
  }

  datatype Seen = Seen(handle: nat, expiresAt: nat)
  datatype Shape = Shape(installation: nat, record: Option<Seen>, binding: Option<nat>, offered: bool)

  // What is kept about one authorization. Its key is its place among the authorizations of a client:
  // the digest of the installation and the authorization id.
  class Auth {
    const env: Environment
    const installation: nat
    // Whether the server is asked for a PAT binding instead of an authorization code.
    const pat: bool
    var record: Option<Record>
    var verifier: Option<File<string>>
    var code: Option<File<string>>
    // The binding the server made for this idempotency key.
    var binding: Option<Binding>

    // The verifiers whose challenges were in the URLs returned, none for a PAT binding.
    ghost var offered: seq<Option<string>>
    // The codes of the callbacks that were recorded, none for a PAT binding.
    ghost var accepted: seq<Option<string>>
    // Whether a refusal was ever recorded.
    ghost var denied: bool
    ghost var sent: seq<Request>

    constructor (env: Environment, installation: nat, pat: bool)
      ensures this.env == env && this.installation == installation && this.pat == pat
      ensures record == None && binding == None && offered == [] && Inv()
    {
      this.env, this.installation, this.pat := env, installation, pat;
      record, verifier, code, binding, offered, accepted, denied, sent := None, None, None, None, [], [], false, [];
    }

    // At most one callback was recorded and the exchange was sent at most once: only for a recorded
    // callback, with its code and the verifier that every URL of the authorization was bound to. After
    // a refusal, or before one, neither ever happens.
    ghost predicate ExchangedAtMostOnce()
      reads this
    {
      && |sent| <= 1 && |accepted| <= 1
      && (sent != [] ==> accepted != [] && record.Some?)
      && (denied ==> accepted == [] && sent == [])
      && (sent != [] && pat ==> sent[0] == Claim(record.value.handle))
      && (sent != [] && !pat ==> sent[0].Exchange? && Some(sent[0].code) == accepted[0])
      && (sent != [] && !pat ==> forall i :: 0 <= i < |offered| ==> offered[i] == Some(sent[0].verifier))
    }

    predicate Started(p: Phase) {
      p.ExchangeStarted? || p.AwaitingVerification? || p.Unknown?
    }

    ghost predicate Inv()
      reads this
    {
      && ExchangedAtMostOnce()
      && (record.None? ==> offered == [] && accepted == [] && !denied && sent == [])
      && (record.Some? ==> RecordInv())
    }

    ghost predicate RecordInv()
      requires record.Some?
      reads this
    {
      var phase := record.value.phase;
      && (forall i :: 0 <= i < |offered| ==> offered[i] == Challenged())
      && (if pat then binding.Some? && binding.value.handle == record.value.handle else Challenged().Some?)
      && (denied <==> phase.Denied?)
      && (accepted != [] <==> phase.AwaitingConfirmation? || Started(phase))
      && (sent != [] ==> Started(phase) && (!pat ==> sent[0].Exchange? && Some(sent[0].verifier) == Challenged()))
      && (phase.AwaitingConfirmation? && !pat ==>
           code.Some? && code.value.Whole? && accepted == [Some(code.value.text)])
    }

    ghost function Challenged(): Option<string>
      reads this
    {
      if !pat && verifier.Some? && verifier.value.Whole? then Some(verifier.value.text) else None
    }

    ghost function History(): Past
      reads this
    {
      Past(offered, accepted, denied, sent)
    }

    // What other authorizations can tell of this one.
    ghost function View(): Shape
      reads this
    {
      Shape(installation, if record.Some? then Some(Seen(record.value.handle, record.value.expiresAt)) else None,
            if binding.Some? then Some(binding.value.handle) else None, offered != [])
    }

    // `writeRecord`: staged, then renamed into place.
    method Write(r: Record, ghost answer: Option<string>) returns (o: Outcome)
      modifies this`record, this`accepted, this`denied, env`faults
      ensures o.Done? ==> record == Some(r)
      ensures (record == old(record) && accepted == old(accepted) && denied == old(denied)) ||
              (record == Some(r) && denied == (old(denied) || r.phase.Denied?) &&
               accepted == if r.phase.AwaitingConfirmation? then old(accepted) + [answer] else old(accepted))
      ensures env.faults >= old(env.faults)
      ensures env.faults == old(env.faults) ==> o.Done?
    {
      var lands;
      o, lands := env.Decide();
      if lands {
        record, denied := Some(r), denied || r.phase.Denied?;
        if r.phase.AwaitingConfirmation? { accepted := accepted + [answer]; }
      }
      if !o.Done? { return; }
      o, lands := env.Decide();
    }

    // The part of `begin` that prepares the verifier, made once and kept.
    method EnsureVerifier() returns (o: Outcome)
      requires Inv() && record.None?
      modifies this`verifier, env`faults
      ensures Inv() && env.faults >= old(env.faults)
      ensures o.Done? ==> verifier.Some? && verifier.value.Whole?
      ensures old(verifier).Some? ==> verifier == old(verifier) && (o.Done? ==> old(verifier).value.Whole?)
    {
      var lands;
      o, lands := env.Decide();
      if !o.Done? { return; }
      if verifier.Some? {
        if verifier.value.Torn? { return Failed; }
      } else {
        var made: string := *;
        o, verifier := Publish(env, verifier, made);
      }
    }

    ghost method NoteOffer()
      requires Inv() && record.Some?
      modifies this`offered
      ensures Inv() && offered == old(offered) + [Challenged()]
    {
      offered := offered + [Challenged()];
    }

    // The body of `callback` once the record is found. The code is absent when the user refused.
    method Callback(answer: Option<string>) returns (o: Outcome)
      requires Inv() && record.Some?
      modifies this`record, this`accepted, this`denied, this`code, env`faults
      ensures Inv() && View() == old(View())
      ensures sent == old(sent) && Later(old(History()), History())
      ensures accepted != old(accepted) ==>
                old(record).value.phase.AwaitingCallback? && accepted == [if pat then None else answer]
      ensures o.Done? ==> old(record).value.phase.AwaitingCallback?
      ensures o.Done? ==> record.value.phase == if pat || answer.Some? then AwaitingConfirmation else Denied
      ensures env.faults >= old(env.faults)
      ensures env.faults == old(env.faults) && old(record).value.phase.AwaitingCallback? && old(code) == None ==>
        o.Done?
    {
      var r := record.value;
      if !r.phase.AwaitingCallback? { return Failed; }
      var lands;
      o, lands := env.Decide();
      if !o.Done? { return; }
      if pat {
        o := Write(r.(phase := AwaitingConfirmation), None);
      } else if answer.Some? {
        o, code := Publish(env, code, answer.value);
        if !o.Done? { return; }
        o := Write(r.(phase := AwaitingConfirmation), answer);
      } else {
        o := Write(r.(phase := Denied), None);
      }
    }

    // The reply of the server and what is done with it. A failure is recorded as unknown, if it can be.
    method Conclude(replied: bool) returns (o: Outcome)
      requires Inv() && record.Some? && record.value.phase.ExchangeStarted?
      modifies this`record, this`accepted, this`denied, env`faults
      ensures Inv() && View() == old(View()) && accepted == old(accepted) && Later(old(History()), History())
      ensures env.faults >= old(env.faults)
      ensures env.faults == old(env.faults) ==>
        o.Done? && record.value.phase == if replied then AwaitingVerification else Unknown
    {
      var r := record.value;
      var lands;
      o, lands := env.Decide();
      if o.Done? && !replied { o := Failed; }
      if o.Done? {
        o := Write(r.(phase := AwaitingVerification), None);
      }
      if o.Done? {
        o, lands := env.Decide();
      }
      if o.Failed? {
        o := Write(r.(phase := Unknown), None);
        if o.Failed? { o := Done; }
      }
    }

    // The body of `confirm`.
    method Confirm() returns (o: Outcome)
      requires Inv() && record.Some?
      modifies this`record, this`accepted, this`denied, this`sent, env`faults
      ensures Inv() && View() == old(View()) && accepted == old(accepted) && Later(old(History()), History())
      ensures old(sent) <= sent && (denied ==> sent == old(sent) && record == old(record))
      ensures env.faults >= old(env.faults)
      ensures env.faults == old(env.faults) && old(record).value.phase.AwaitingConfirmation? ==>
                o.Done? && |sent| == 1 && record.value.phase.AwaitingVerification?
    {
      var r := record.value;
      if !r.phase.AwaitingConfirmation? { return Done; }
      var request;
      if pat {
        request := Claim(r.handle);
      } else {
        if code.None? || code.value.Torn? || verifier.None? || verifier.value.Torn? { return Failed; }
        request := Exchange(code.value.text, verifier.value.text);
      }
      :- Write(r.(phase := ExchangeStarted), None);
      var lands;
      o, lands := env.Decide();
      if lands { sent := sent + [request]; }
      if o.Crashed? { return; }
      o := Conclude(o.Done?);
    }

    // The body of `refresh`; what it does to the tokens is in `TokenRotation`.
    method Refresh() returns (o: Outcome)
      requires Inv() && record.Some?
      modifies this`record, this`accepted, this`denied, env`faults
      ensures Inv() && View() == old(View()) && accepted == old(accepted) && Later(old(History()), History())
    {
      var r := record.value;
      if !r.phase.AwaitingVerification? || pat { return Done; }
      :- Write(r.(phase := ExchangeStarted), None);
      var lands;
      o, lands := env.Decide();
      if !o.Done? { return; }
      var replied := *;
      o := Conclude(replied);
    }
  }

  // ---- The authorizations together ----

  // `state-<handle>` holds the key of an authorization.
  type States = map<nat, File<nat>>
  // `current-<installation>.json`
  type Pointers = map<nat, Pointer>
  // Whom each random state or binding id was made for: none is made twice.
  type Owners = map<nat, nat>

  ghost predicate Live(s: Shape, now: nat) {
    s.record.Some? && now < s.record.value.expiresAt
  }

  // Of the authorizations of an installation whose URL was returned, at most one is unexpired.
  ghost predicate OneLiveOffer(shapes: seq<Shape>, now: nat) {
    forall i, j :: 0 <= i < j < |shapes| && shapes[i].installation == shapes[j].installation ==>
      !(shapes[i].offered && Live(shapes[i], now) && shapes[j].offered && Live(shapes[j], now))
  }

  // A state file leads to the one record with that state, and every URL returned can be called back.
  ghost predicate StatesPointHome(shapes: seq<Shape>, states: States) {
    && (forall h, i :: h in states && states[h].Whole? && 0 <= i < |shapes| ==>
          (shapes[i].record.Some? && shapes[i].record.value.handle == h <==> i == states[h].text))
    && (forall i :: 0 <= i < |shapes| && shapes[i].offered ==>
          shapes[i].record.Some? && Registered(states, shapes[i].record.value.handle, i))
  }

  ghost predicate Owned(owners: Owners, handle: nat, i: nat) {
    handle in owners && owners[handle] == i
  }

  ghost predicate KeyLinks(s: Shape, i: nat, now: nat, states: States, pointers: Pointers, owners: Owners) {
    && (s.record.Some? ==> Owned(owners, s.record.value.handle, i))
    && (s.binding.Some? ==> Owned(owners, s.binding.value, i))
    && (s.offered ==> s.record.Some? && Registered(states, s.record.value.handle, i))
    && (s.offered && Live(s, now) ==> s.installation in pointers && pointers[s.installation].key == i)
  }

  // The state file is whole and leads to this authorization.
  ghost predicate Registered(states: States, handle: nat, i: nat) {
    handle in states && states[handle] == Whole(i)
  }

  ghost predicate StateLinks(shapes: seq<Shape>, h: nat, i: nat) {
    i < |shapes| && shapes[i].record.Some? && shapes[i].record.value.handle == h
  }

  ghost predicate PointerLinks(shapes: seq<Shape>, n: nat, p: Pointer) {
    && p.key < |shapes| && shapes[p.key].installation == n
    && shapes[p.key].record.Some? && shapes[p.key].record.value.expiresAt == p.expiresAt
  }

  ghost predicate Links(shapes: seq<Shape>, now: nat, states: States, pointers: Pointers, owners: Owners) {
    && (forall i :: 0 <= i < |shapes| ==> KeyLinks(shapes[i], i, now, states, pointers, owners))
    && (forall h :: h in states && states[h].Whole? ==> StateLinks(shapes, h, states[h].text))
    && (forall n :: n in pointers ==> PointerLinks(shapes, n, pointers[n]))
  }

  lemma LinksMean(shapes: seq<Shape>, now: nat, states: States, pointers: Pointers, owners: Owners)
    requires Links(shapes, now, states, pointers, owners)
    ensures OneLiveOffer(shapes, now) && StatesPointHome(shapes, states)
  {
  }

  // One authorization gains a record, a binding or an offer; a record it had keeps handle and expiry.
  lemma LinksGrow(shapes: seq<Shape>, i: nat, s: Shape, now: nat, states: States, pointers: Pointers, owners: Owners)
    requires Links(shapes, now, states, pointers, owners) && i < |shapes|
    requires s.installation == shapes[i].installation && KeyLinks(s, i, now, states, pointers, owners)
    requires shapes[i].record.Some? ==> s.record == shapes[i].record
    ensures Links(shapes[i := s], now, states, pointers, owners)
  {
  }

  // The installation may be pointed elsewhere once what it pointed to has expired.
  lemma LinksRepoint(shapes: seq<Shape>, i: nat, now: nat, states: States, pointers: Pointers, owners: Owners)
    requires Links(shapes, now, states, pointers, owners) && i < |shapes| && shapes[i].record.Some?
    requires var n := shapes[i].installation; n in pointers && pointers[n].key != i ==> pointers[n].expiresAt <= now
    ensures var pointer := Pointer(i, shapes[i].record.value.expiresAt);
      Links(shapes, now, states, pointers[shapes[i].installation := pointer], owners)
  {
  }

  // A whole state file under the handle of an authorization is its own.
  lemma StateIsOwn(shapes: seq<Shape>, i: nat, now: nat, states: States, pointers: Pointers, owners: Owners)
    requires Links(shapes, now, states, pointers, owners) && i < |shapes| && shapes[i].record.Some?
    ensures var handle := shapes[i].record.value.handle;
      handle in states && states[handle].Whole? ==> states[handle] == Whole(i)
  {
    LinksMean(shapes, now, states, pointers, owners);
  }

  // The state file of an authorization appears, whole or torn; a whole one stays as it is.
  lemma LinksRegister(shapes: seq<Shape>, i: nat, file: File<nat>, now: nat, states: States, pointers: Pointers,
                      owners: Owners)
    requires Links(shapes, now, states, pointers, owners) && i < |shapes| && shapes[i].record.Some?
    requires var handle := shapes[i].record.value.handle;
      file in {Torn, Whole(i)} && (handle in states && states[handle].Whole? ==> file == states[handle])
    ensures Links(shapes, now, states[shapes[i].record.value.handle := file], pointers, owners)
  {
    var states' := states[shapes[i].record.value.handle := file];
    forall j | 0 <= j < |shapes| ensures KeyLinks(shapes[j], j, now, states', pointers, owners) {
      assert KeyLinks(shapes[j], j, now, states, pointers, owners);
    }
  }

  class Client {
    const env: Environment
    const auths: seq<Auth>
    var now: nat
    var states: States
    var pointers: Pointers
    var owners: Owners

    constructor (env: Environment, auths: seq<Auth>)
      requires forall i, j :: 0 <= i < j < |auths| ==> auths[i] != auths[j]
      requires forall i :: 0 <= i < |auths| ==> auths[i].env == env && auths[i].Inv()
      requires forall i :: 0 <= i < |auths| ==> auths[i].record == None && auths[i].binding == None
      ensures this.env == env && this.auths == auths && Inv()
    {
      this.env, this.auths, now, states, pointers, owners := env, auths, 0, map[], map[], map[];
    }

    ghost function Shapes(): (r: seq<Shape>)
      reads this, auths
      ensures |r| == |auths| && forall i :: 0 <= i < |r| ==> r[i] == auths[i].View()
    {
      seq(|auths|, i requires 0 <= i < |auths| reads this, auths => auths[i].View())
    }

    ghost function Pasts(): (r: seq<Past>)
      reads this, auths
      ensures |r| == |auths| && forall i :: 0 <= i < |r| ==> r[i] == auths[i].History()
    {
      seq(|auths|, i requires 0 <= i < |auths| reads this, auths => auths[i].History())
    }

    ghost predicate Linked()
      reads this, auths
    {
      Links(Shapes(), now, states, pointers, owners)
    }

    ghost predicate Inv()
      reads this, auths
    {
      && (forall i, j :: 0 <= i < j < |auths| ==> auths[i] != auths[j])
      && (forall i :: 0 <= i < |auths| ==> auths[i].env == env && auths[i].Inv())
      && Linked()
    }

    predicate At(i: nat, a: Auth) {
      i < |auths| && auths[i] == a
    }

    // `Date.now()`: the clock never goes back.
    method Now() returns (t: nat)
      requires Inv()
      modifies this`now
      ensures Inv() && t == now >= old(now)
    {
      var clock: int := *;
      if clock > now { now := clock; }
      t := now;
      assert Shapes() == old(Shapes());
    }

    // `check`: the grant, the original execution and, against a record, its expiry.
    method Check(expiresAt: Option<nat>) returns (o: Outcome)
      requires Inv()
      modifies this`now, env`faults
      ensures Inv() && now >= old(now) && env.faults >= old(env.faults)
      ensures o.Done? && expiresAt.Some? ==> now < expiresAt.value
    {
      var lands;
      o, lands := env.Decide();
      if !o.Done? { return; }
      var t := Now();
      if expiresAt.Some? && expiresAt.value <= t { return Failed; }
    }

    // Fails while another authorization of the installation is pending.
    method Uncontested(i: nat, a: Auth) returns (o: Outcome)
      requires Inv() && At(i, a)
      modifies this`now, env`faults
      ensures Inv() && now >= old(now)
      ensures o.Done? && a.installation in pointers && pointers[a.installation].key != i ==>
        pointers[a.installation].expiresAt <= now
    {
      o := Check(None);
      if !o.Done? { return; }
      var t := Now();
      var n := a.installation;
      if n in pointers && pointers[n].expiresAt > t && pointers[n].key != i { return Failed; }
      return Done;
    }

    // A random state, or the id of a binding: not one made before.
    method MakeHandle(i: nat) returns (o: Outcome, handle: nat)
      requires Inv()
      modifies this`owners
      ensures Inv() && !o.Crashed?
      ensures o.Done? ==> Owned(owners, handle, i)
    {
      handle := *;
      if handle in owners { return Failed, handle; }
      owners := owners[handle := i];
      o := Done;
      assert Shapes() == old(Shapes());
    }

    // `createPatBinding`: the server answers a repeated request with the same binding.
    method CreateBinding(i: nat, a: Auth) returns (o: Outcome)
      requires Inv() && At(i, a) && a.record.None?
      modifies this`now, this`owners, a`binding, env`faults
      ensures Inv()
      ensures o.Done? ==> a.binding.Some? && Owned(owners, a.binding.value.handle, i) && now < a.binding.value.expiresAt
      ensures old(a.binding).Some? ==> a.binding == old(a.binding)
    {
      var lands;
      o, lands := env.Decide();
      if lands && a.binding.None? {
        var made, handle := MakeHandle(i);
        if !made.Done? { return Failed; }
        var expiresAt: nat := *;
        ghost var before := Shapes();
        a.binding := Some(Binding(handle, expiresAt));
        LinksGrow(before, i, a.View(), now, states, pointers, owners);
        assert Shapes() == before[i := a.View()];
      }
      if !o.Done? { return; }
      var t := Now();
      if a.binding.value.expiresAt <= t { return Failed; }
      assert Owned(owners, Shapes()[i].binding.value, i);
    }

    // The handle and the expiry of a new record, once what it rests on is in place.
    method Prepare(i: nat, a: Auth) returns (o: Outcome, handle: nat, expiresAt: nat)
      requires Inv() && At(i, a) && a.record.None?
      modifies this`now, this`owners, a`binding, a`verifier, env`faults
      ensures Inv()
      ensures o.Done? ==> Owned(owners, handle, i)
      ensures o.Done? ==> if a.pat then a.binding.Some? && a.binding.value.handle == handle else a.Challenged().Some?
    {
      var t := Now();
      handle, expiresAt := 0, t + LIFETIME;
      if a.pat {
        o := CreateBinding(i, a);
        if !o.Done? { return; }
        handle := a.binding.value.handle;
        if a.binding.value.expiresAt < expiresAt { expiresAt := a.binding.value.expiresAt; }
      } else {
        o, handle := MakeHandle(i);
        if !o.Done? { return; }
        ghost var before := Shapes();
        o := a.EnsureVerifier();
        assert Shapes() == before;
      }
    }

    method Create(i: nat, a: Auth, request: nat) returns (o: Outcome)
      requires Inv() && At(i, a) && a.record.None?
      modifies this`now, this`owners, a`binding, a`verifier, a`record, a`accepted, a`denied, env`faults
      ensures Inv()
      ensures a.History() == old(a.History()) && (o.Done? ==> a.record.Some? && a.record.value.request == request)
    {
      o := Uncontested(i, a);
      if !o.Done? { return; }
      var handle, expiresAt;
      o, handle, expiresAt := Prepare(i, a);
      if !o.Done? { return; }
      :- Check(None);
      o := Open(i, a, Record(handle, AwaitingCallback, expiresAt, request));
    }

    // The first write of a record.
    method Open(i: nat, a: Auth, r: Record) returns (o: Outcome)
      requires Inv() && At(i, a) && a.record.None? && r.phase.AwaitingCallback? && Owned(owners, r.handle, i)
      requires if a.pat then a.binding.Some? && a.binding.value.handle == r.handle else a.Challenged().Some?
      modifies a`record, a`accepted, a`denied, env`faults
      ensures Inv()
      ensures a.History() == old(a.History()) && (o.Done? ==> a.record == Some(r))
    {
      o := a.Write(r, None);
      LinksGrow(old(Shapes()), i, a.View(), now, states, pointers, owners);
      assert Shapes() == old(Shapes())[i := a.View()];
    }

    method PublishState(i: nat, a: Auth) returns (o: Outcome)
      requires Inv() && At(i, a) && a.record.Some?
      modifies this`states, env`faults
      ensures Inv()
      ensures o.Done? ==> Registered(states, a.record.value.handle, i)
    {
      var handle, file := a.record.value.handle, None;
      o, file := Publish(env, if handle in states then Some(states[handle]) else None, i);
      if file.Some? {
        StateIsOwn(Shapes(), i, now, states, pointers, owners);
        LinksRegister(Shapes(), i, file.value, now, states, pointers, owners);
        states := states[handle := file.value];
      }
      assert Shapes() == old(Shapes());
    }

    method WritePointer(i: nat, a: Auth) returns (o: Outcome)
      requires Inv() && At(i, a) && a.record.Some?
      requires a.installation in pointers && pointers[a.installation].key != i ==>
        pointers[a.installation].expiresAt <= now
      modifies this`pointers, env`faults
      ensures Inv()
      ensures o.Done? ==> a.installation in pointers && pointers[a.installation].key == i
    {
      var lands;
      o, lands := env.Decide();
      LinksRepoint(Shapes(), i, now, states, pointers, owners);
      if lands { pointers := pointers[a.installation := Pointer(i, a.record.value.expiresAt)]; }
      assert Shapes() == old(Shapes());
    }

    // The state file, then the pointer of the installation, then the URL.
    method Offer(i: nat, a: Auth) returns (o: Outcome)
      requires Inv() && At(i, a) && a.record.Some?
      modifies this`now, this`states, this`pointers, a`offered, env`faults
      ensures Inv() && a.offered in {old(a.offered), old(a.offered) + [a.Challenged()]}
      ensures o.Done? ==> a.offered == old(a.offered) + [a.Challenged()]
    {
      var expiresAt := Some(a.record.value.expiresAt);
      :- Uncontested(i, a);
      :- PublishState(i, a);
      :- Check(expiresAt);
      :- WritePointer(i, a);
      :- Check(expiresAt);
      NoteOffer(i, a);
      return Done;
    }

    // The URL is returned.
    ghost method NoteOffer(i: nat, a: Auth)
      requires Inv() && At(i, a) && a.record.Some? && a.installation in pointers && pointers[a.installation].key == i
      requires Registered(states, a.record.value.handle, i)
      modifies a`offered
      ensures Inv() && a.offered == old(a.offered) + [a.Challenged()]
    {
      a.NoteOffer();
      LinksGrow(old(Shapes()), i, a.View(), now, states, pointers, owners);
      assert Shapes() == old(Shapes())[i := a.View()];
    }

    // The record of the request: the one there is, or a new one.
    method Ensure(i: nat, a: Auth, request: nat) returns (o: Outcome)
      requires Inv() && At(i, a)
      modifies this`now, this`owners, a`binding, a`verifier, a`record, a`accepted, a`denied, env`faults
      ensures Inv() && a.History() == old(a.History())
      ensures old(a.record).Some? ==> a.record == old(a.record)
      ensures o.Done? ==> a.record.Some? && a.record.value.request == request
    {
      var lands;
      o, lands := env.Decide();
      if !o.Done? { return; }
      if a.record.Some? {
        :- Check(Some(a.record.value.expiresAt));
        if a.record.value.request != request { return Failed; }
      } else {
        :- Check(None);
        :- Create(i, a, request);
      }
      return Done;
    }

    method Begin(i: nat, a: Auth, request: nat) returns (o: Outcome)
      requires Inv() && At(i, a)
      modifies this, a, env`faults
      ensures Inv() && a.sent == old(a.sent) && a.accepted == old(a.accepted)
      ensures Later(old(a.History()), a.History())
      ensures old(a.record).Some? ==> a.record == old(a.record)
      ensures o.Done? ==> a.record.Some? && a.record.value.request == request && now < a.record.value.expiresAt
      ensures o.Done? && a.record.value.phase.AwaitingCallback? ==> a.offered == old(a.offered) + [a.Challenged()]
    {
      o := Ensure(i, a, request);
      if !o.Done? { return; }
      var t := Now();
      if a.record.value.phase.AwaitingCallback? && t < a.record.value.expiresAt {
        :- Offer(i, a);
      }
      o := Check(Some(a.record.value.expiresAt));
    }

    // The callback names a handle; the state file tells whose it is.
    method Find(handle: nat) returns (o: Outcome, i: nat)
      requires Inv()
      modifies this`now, env`faults
      ensures Inv()
      ensures o.Done? ==> i < |auths| && auths[i].record.Some? && auths[i].record.value.handle == handle
      ensures o.Done? ==> old(now) <= now < auths[i].record.value.expiresAt
    {
      i := 0;
      o := Check(None);
      if !o.Done? { return; }
      if handle !in states || states[handle].Torn? { return Failed, i; }
      i := states[handle].text;
      assert StateLinks(Shapes(), handle, i);
      o := Check(Some(auths[i].record.value.expiresAt));
    }

    // The callback reaches the authorization it is for.
    method Deliver(i: nat, a: Auth, answer: Option<string>) returns (o: Outcome)
      requires Inv() && At(i, a) && a.record.Some?
      modifies a`record, a`accepted, a`denied, a`code, env`faults
      ensures Inv() && a.View() == old(a.View()) && Later(old(a.History()), a.History())
      ensures o.Done? ==> a.record.value.phase == if a.pat || answer.Some? then AwaitingConfirmation else Denied
    {
      ghost var before := Shapes();
      o := a.Callback(answer);
      assert Shapes() == before;
    }

    method Callback(handle: nat, answer: Option<string>) returns (o: Outcome, i: nat)
      requires Inv()
      modifies this`now, auths, env`faults
      ensures Inv()
      ensures forall j :: 0 <= j < |auths| && j != i ==> unchanged(auths[j])
      ensures i < |auths| ==> Later(old(auths[i].History()), auths[i].History())
      ensures i < |auths| && auths[i].record != old(auths[i].record) ==>
        auths[i].record.Some? && old(now) < auths[i].record.value.expiresAt
      ensures o.Done? ==> i < |auths| && auths[i].record.Some? && auths[i].record.value.handle == handle
      ensures o.Done? ==>
        auths[i].record.value.phase == if auths[i].pat || answer.Some? then AwaitingConfirmation else Denied
    {
      o, i := Find(handle);
      if !o.Done? { return; }
      o := Deliver(i, auths[i], answer);
      if !o.Done? { return; }
      o := Check(None);
    }

    // The record is there and has not expired.
    method Redeem(i: nat, a: Auth) returns (o: Outcome)
      requires Inv() && At(i, a) && a.record.Some?
      modifies a`record, a`accepted, a`denied, a`sent, env`faults
      ensures Inv() && a.View() == old(a.View()) && a.accepted == old(a.accepted)
      ensures Later(old(a.History()), a.History())
    {
      ghost var before := Shapes();
      o := a.Confirm();
      assert Shapes() == before;
    }

    method Confirm(i: nat, a: Auth) returns (o: Outcome)
      requires Inv() && At(i, a)
      modifies this`now, a, env`faults
      ensures Inv() && a.accepted == old(a.accepted) && Later(old(a.History()), a.History())
      ensures a.record != old(a.record) || a.sent != old(a.sent) ==>
        a.record.Some? && old(now) < a.record.value.expiresAt
    {
      if a.record.None? { return Failed; }
      :- Check(Some(a.record.value.expiresAt));
      o := Redeem(i, a);
    }

    method Renew(i: nat, a: Auth) returns (o: Outcome)
      requires Inv() && At(i, a) && a.record.Some?
      modifies a`record, a`accepted, a`denied, env`faults
      ensures Inv() && a.View() == old(a.View()) && a.accepted == old(a.accepted)
      ensures Later(old(a.History()), a.History())
    {
      ghost var before := Shapes();
      o := a.Refresh();
      assert Shapes() == before;
    }

    method Refresh(i: nat, a: Auth) returns (o: Outcome)
      requires Inv() && At(i, a)
      modifies this`now, a, env`faults
      ensures Inv() && a.sent == old(a.sent) && a.accepted == old(a.accepted)
      ensures Later(old(a.History()), a.History())
      ensures a.record != old(a.record) ==> a.record.Some? && old(now) < a.record.value.expiresAt
    {
      if a.record.None? { return Failed; }
      :- Check(Some(a.record.value.expiresAt));
      o := Renew(i, a);
    }
  }

  ghost predicate AllLater(a: seq<Past>, b: seq<Past>) {
    |a| == |b| && forall i :: 0 <= i < |a| ==> Later(a[i], b[i])
  }

  // Any command, with any faults.
  method AnyCommand(c: Client)
    requires c.Inv()
    modifies c, c.auths, c.env`faults
    ensures c.Inv() && AllLater(old(c.Pasts()), c.Pasts())
  {
    var i: int, number: nat, answer: Option<string> := *, *, *;
    var o := Done;
    if 0 <= i < |c.auths| {
      if {
        case true => o := c.Begin(i, c.auths[i], number);
        case true => o := c.Confirm(i, c.auths[i]);
        case true => o := c.Refresh(i, c.auths[i]);
      }
    } else {
      o, i := c.Callback(number, answer);
    }
  }

  // Any commands, in any order.
  method AnyHistory(c: Client)
    requires c.Inv()
    modifies c, c.auths, c.env`faults
    ensures c.Inv() && AllLater(old(c.Pasts()), c.Pasts())
    ensures forall i :: 0 <= i < |c.auths| ==> c.auths[i].ExchangedAtMostOnce()
    ensures OneLiveOffer(c.Shapes(), c.now) && StatesPointHome(c.Shapes(), c.states)
  {
    ghost var start := c.Pasts();
    var commands: nat := *;
    while commands > 0
      invariant c.Inv() && AllLater(start, c.Pasts())
    {
      ghost var before := c.Pasts();
      AnyCommand(c);
      LaterTwice(start, before, c.Pasts());
      commands := commands - 1;
    }
    LinksMean(c.Shapes(), c.now, c.states, c.pointers, c.owners);
  }

  lemma LaterTwice(a: seq<Past>, b: seq<Past>, c: seq<Past>)
    requires AllLater(a, b) && AllLater(b, c)
    ensures AllLater(a, c)
  {
  }
}
