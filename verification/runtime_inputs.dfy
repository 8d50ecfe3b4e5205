/**
 Publishing runtime inputs to a cluster that others write to at the same time: the configuration
 Secrets, then the local files, then the Deployments that mount the Secrets, checked throughout.
*/
module RuntimeInputs {
  import opened Faults

  type Data = string

  // A Secret as the cluster shows it. Its version changes with every write; here it counts them.
  // `owned` sums up its labels, its type and that it is not on its way out.
  datatype SecretView = SecretView(uid: nat, version: nat, data: Option<Data>, owned: bool)

  // A Deployment as the cluster shows it. `rolledOut`: its status is current, every replica is ready.
  datatype DeploymentView =
    DeploymentView(uid: nat, version: nat, replicas: nat, revision: Option<string>, rolledOut: bool)

  // ---- What happened, in order ----

  // The first three are commands that could change something, noted as they are issued: a file with the
  // bytes last seen in it, a Deployment with the view that the command names.
  datatype Event =
    | Replace(secret: nat)
    | Promote(file: nat, over: Option<string>)
    | Patch(deployment: nat, base: DeploymentView)
    | SecretSeen(secret: nat, secretView: SecretView)
    | DeploymentSeen(deployment: nat, view: DeploymentView)
    | LoginVerified

  type Events = seq<Event>

  predicate Mutating(e: Event) {
    e.Replace? || e.Promote? || e.Patch?
  }

  // A look at the Secret.
  predicate Sees(e: Event, secret: nat) {
    e.SecretSeen? && e.secret == secret
  }

  // Looks at one Secret are in the order of its versions, none beyond the latest.
  ghost predicate InTurn(events: Events, latest: map<nat, nat>, k: nat, l: nat) {
    k < |events| && events[k].SecretSeen? ==>
      && events[k].secret in latest && events[k].secretView.version <= latest[events[k].secret]
      && (k < l < |events| && Sees(events[l], events[k].secret) ==>
            events[k].secretView.version <= events[l].secretView.version)
  }

  class Trail {
    ghost var events: Events
    // The version of each Secret at the last look at it.
    ghost var latest: map<nat, nat>

    constructor ()
      ensures events == [] && latest == map[] && Valid()
    {
      events, latest := [], map[];
    }

    ghost predicate Valid()
      reads this
    {
      forall k: nat, l: nat :: InTurn(events, latest, k, l)
    }

    ghost method Note(e: Event)
      requires Valid() && (e.SecretSeen? && e.secret in latest ==> latest[e.secret] <= e.secretView.version)
      modifies this
      ensures Valid() && events == old(events) + [e]
      ensures latest == if e.SecretSeen? then old(latest)[e.secret := e.secretView.version] else old(latest)
    {
      events := events + [e];
      if e.SecretSeen? { latest := latest[e.secret := e.secretView.version]; }
      forall k: nat, l: nat ensures InTurn(events, latest, k, l) {
        assert old(InTurn(events, latest, k, l));
      }
    }
  }

  // No command in this part of the trail.
  ghost predicate Idle(events: Events, from: nat) {
    forall k :: from <= k < |events| ==> !Mutating(events[k])
  }

  // Since then nothing but reads.
  ghost predicate Looked(before: Events, after: Events) {
    before <= after && Idle(after, |before|)
  }

  // Since then neither a Secret nor a Deployment was written.
  ghost predicate Grew(before: Events, after: Events) {
    before <= after && forall k :: |before| <= k < |after| ==> !after[k].Replace? && !after[k].Patch?
  }

  // The read-back of a Secret: seen with this view, and no command to write it afterwards.
  ghost predicate Marked(events: Events, mark: nat, secret: nat, v: SecretView) {
    && mark < |events| && events[mark] == SecretSeen(secret, v)
    && forall k :: mark < k < |events| ==> events[k] != Replace(secret)
  }

  // Seen with exactly this view from `start` on.
  ghost predicate SeenSince(events: Events, start: nat, secret: nat, v: SecretView) {
    exists r :: start <= r < |events| && events[r] == SecretSeen(secret, v)
  }

  // Before position `p` the Secret was seen exactly as it was read back, later than the read-back and
  // with no command between that look and `p`.
  ghost predicate CheckedFor(events: Events, p: nat, mark: nat, secret: nat, v: SecretView) {
    exists r :: mark < r < p <= |events| && events[r] == SecretSeen(secret, v) &&
      forall k :: r < k < p ==> !Mutating(events[k])
  }

  // Every patch of a Deployment came after the read-back of every Secret, and after a look at every
  // Secret that found it unwritten since.
  ghost predicate PatchedSafely(events: Events, marks: seq<nat>, verified: seq<SecretView>) {
    |marks| == |verified| &&
    forall p, i :: 0 <= p < |events| && events[p].Patch? && 0 <= i < |marks| ==>
      CheckedFor(events, p, marks[i], i, verified[i])
  }

  ghost predicate Unpatched(events: Events) {
    forall k :: 0 <= k < |events| ==> !events[k].Patch?
  }

  lemma MarkStays(before: Events, after: Events, mark: nat, secret: nat, v: SecretView)
    requires Marked(before, mark, secret, v) && before <= after
    requires forall k :: |before| <= k < |after| ==> after[k] != Replace(secret)
    ensures Marked(after, mark, secret, v)
  {
  }

  lemma PatchedSafelyStays(before: Events, after: Events, marks: seq<nat>, verified: seq<SecretView>)
    requires PatchedSafely(before, marks, verified) && Grew(before, after)
    ensures PatchedSafely(after, marks, verified)
  {
    forall p, i | 0 <= p < |after| && after[p].Patch? && 0 <= i < |marks|
      ensures CheckedFor(after, p, marks[i], i, verified[i])
    {
      assert before[p].Patch? && CheckedFor(before, p, marks[i], i, verified[i]);
      var r :| marks[i] < r < p && before[r] == SecretSeen(i, verified[i]) &&
        forall k :: r < k < p ==> !Mutating(before[k]);
      assert after[r] == SecretSeen(i, verified[i]);
    }
  }

  // ---- The objects ----

  datatype MutationStatus = NotApplied | Attempted | Applied

  class Progress {
    var status: MutationStatus

    constructor ()
      ensures status == NotApplied
    {
      status := NotApplied;
    }
  }

  // The receipt asks for recovery exactly if a command that could change something was issued.
  ghost predicate Honest(status: MutationStatus, events: Events) {
    status.NotApplied? <==> Idle(events, 0)
  }

  // Looking changes nothing about that.
  lemma HonestStays(status: MutationStatus, before: Events, after: Events)
    requires Honest(status, before) && Looked(before, after)
    ensures Honest(status, after)
  {
    if Idle(after, 0) {
      forall k | 0 <= k < |before| ensures !Mutating(before[k]) {
        assert after[k] == before[k];
      }
    }
  }

  lemma LookedTwice(a: Events, b: Events, c: Events)
    requires Looked(a, b) && Looked(b, c)
    ensures Looked(a, c)
  {
  }

  lemma GrewTwice(a: Events, b: Events, c: Events)
    requires Grew(a, b) && Grew(b, c)
    ensures Grew(a, c)
  {
  }

  class Secret {
    const env: Environment
    const trail: Trail
    const name: nat
    // Its data as prepared from the local files, without and with the new inputs.
    const before: Data
    const desired: Data
    var view: SecretView
    // All it ever was, and which of these views the publication wrote.
    ghost var history: seq<SecretView>
    ghost var ours: set<nat>

    constructor (env: Environment, trail: Trail, name: nat, before: Data, desired: Data, view: SecretView)
      requires view.version == 0 && trail.Valid() && name !in trail.latest
      ensures this.env == env && this.trail == trail && this.name == name
      ensures this.before == before && this.desired == desired && this.view == view && Inv()
    {
      this.env, this.trail, this.name, this.before, this.desired := env, trail, name, before, desired;
      this.view, this.history, this.ours := view, [view], {};
    }

    // A version stands for one write. What the publication overwrote was its own Secret, with the data that
    // the publication was prepared from, and it changed nothing but the data.
    ghost predicate Inv()
      reads this
    {
      && history != [] && history[|history| - 1] == view
      && (forall k :: 0 <= k < |history| ==> history[k].version == k)
      && (forall k :: k in ours ==>
            && 0 < k < |history| && history[k - 1].owned && history[k - 1].data == Some(before)
            && history[k] == history[k - 1].(version := k, data := Some(desired)))
    }

    // No look at it was at a later version than it has.
    ghost predicate InStep()
      reads this, trail
    {
      trail.Valid() && (name in trail.latest ==> trail.latest[name] <= view.version)
    }

    // Any number of writes by others. Deleting and creating it anew is one too.
    method Interfere()
      requires Inv()
      modifies this`view, this`history
      ensures Inv() && old(history) <= history && old(view).version <= view.version
    {
      var rounds: nat := *;
      while rounds > 0
        invariant Inv() && old(history) <= history && old(view).version <= view.version
      {
        var next: SecretView := *;
        view := next.(version := view.version + 1);
        history := history + [view];
        rounds := rounds - 1;
      }
    }

    // `kubectl get secret`
    method Read() returns (o: Outcome, v: SecretView)
      requires Inv() && InStep()
      modifies this`view, this`history, trail, env`faults
      ensures Inv() && InStep() && old(history) <= history && v == view
      ensures trail.events == if o.Done? then old(trail.events) + [SecretSeen(name, v)] else old(trail.events)
      ensures trail.latest == if o.Done? then old(trail.latest)[name := v.version] else old(trail.latest)
    {
      Interfere();
      v := view;
      var lands;
      o, lands := env.Decide();
      if o.Done? && v.data.None? { o := Failed; }
      if o.Done? { trail.Note(SecretSeen(name, v)); }
    }

    // `kubectl replace` of a view read earlier: the cluster refuses it once the object has changed.
    method Replace(base: SecretView) returns (o: Outcome)
      requires Inv() && InStep() && base in history && base.owned && base.data == Some(before)
      modifies this`view, this`history, this`ours, trail, env`faults
      ensures Inv() && InStep() && old(history) <= history
      ensures trail.events == old(trail.events) + [Event.Replace(name)] && trail.latest == old(trail.latest)
    {
      trail.Note(Event.Replace(name));
      Interfere();
      var lands;
      o, lands := env.Decide();
      if view.uid != base.uid || view.version != base.version {
        if o.Done? { o := Failed; }
        return;
      }
      assert view == base;
      if lands {
        view := base.(version := view.version + 1, data := Some(desired));
        ours := ours + {|history|};
        history := history + [view];
      }
    }
  }

  class Deployment {
    const env: Environment
    const trail: Trail
    const name: nat
    const replicas: nat
    const revision: string
    var view: DeploymentView

    constructor (env: Environment, trail: Trail, name: nat, replicas: nat, revision: string, view: DeploymentView)
      ensures this.env == env && this.trail == trail && this.name == name
      ensures this.replicas == replicas && this.revision == revision && this.view == view
    {
      this.env, this.trail, this.name := env, trail, name;
      this.replicas, this.revision, this.view := replicas, revision, view;
    }

    method Read() returns (o: Outcome, v: DeploymentView)
      requires trail.Valid()
      modifies this`view, trail, env`faults
      ensures v == view && trail.Valid() && trail.latest == old(trail.latest)
      ensures trail.events == if o.Done? then old(trail.events) + [DeploymentSeen(name, v)] else old(trail.events)
    {
      var next: DeploymentView := *;
      if next.version > view.version { view := next; }
      v := view;
      var lands;
      o, lands := env.Decide();
      if o.Done? { trail.Note(DeploymentSeen(name, v)); }
    }

    // `kubectl patch` naming the version read: refused once the object has changed.
    method Patch(base: DeploymentView) returns (o: Outcome)
      requires trail.Valid()
      modifies this`view, trail, env`faults
      ensures trail.Valid() && trail.latest == old(trail.latest)
      ensures o.Done? ==> view.uid == base.uid && view.version == base.version + 1 && view.revision == Some(revision)
      ensures trail.events == old(trail.events) + [Event.Patch(name, base)]
    {
      trail.Note(Event.Patch(name, base));
      var lands;
      o, lands := env.Decide();
      var next: DeploymentView := *;
      if next.version > view.version { view := next; }
      if view.uid != base.uid || view.version != base.version {
        if o.Done? { o := Failed; }
        return;
      }
      if lands { view := view.(version := view.version + 1, revision := Some(revision), rolledOut := false); }
    }
  }

  // The Deployment carries the revision of the published data on all its replicas.
  predicate Current(d: Deployment, v: DeploymentView) {
    v.revision == Some(d.revision) && v.replicas == d.replicas && v.rolledOut
  }

  // The Deployment of this uid was seen to be current.
  predicate SawCurrent(e: Event, d: Deployment, uid: nat) {
    e.DeploymentSeen? && e.deployment == d.name && e.view.uid == uid && Current(d, e.view)
  }

  ghost predicate ObservedSince(events: Events, start: nat, d: Deployment, uid: nat) {
    exists r :: start <= r < |events| && SawCurrent(events[r], d, uid)
  }

  class LocalFile {
    const env: Environment
    const trail: Trail
    const name: nat
    const before: string
    const after: string
    var bytes: string
    // Whether the new bytes were put in place, and what was last seen in it.
    ghost var promoted: bool
    ghost var known: Option<string>

    constructor (env: Environment, trail: Trail, name: nat, before: string, after: string, bytes: string)
      ensures this.env == env && this.trail == trail && this.name == name
      ensures this.before == before && this.after == after && this.bytes == bytes && !promoted
    {
      this.env, this.trail, this.name := env, trail, name;
      this.before, this.after, this.bytes, this.promoted := before, after, bytes, false;
      this.known := None;
    }

    method Read() returns (o: Outcome, bytes: string)
      modifies this`bytes, this`known, env`faults
      ensures bytes == this.bytes && (o.Done? ==> known == Some(bytes))
    {
      if * { this.bytes := *; }
      bytes := this.bytes;
      var lands;
      o, lands := env.Decide();
      if o.Done? { known := Some(bytes); }
    }

    // Staged beside it and renamed.
    method Promote() returns (o: Outcome)
      requires trail.Valid()
      modifies this`bytes, this`promoted, trail, env`faults
      ensures trail.Valid() && trail.latest == old(trail.latest)
      ensures promoted ==> old(promoted) || bytes == after
      ensures old(promoted) || o.Done? ==> promoted
      ensures trail.events == old(trail.events) + [Event.Promote(name, known)]
    {
      trail.Note(Event.Promote(name, known));
      var lands;
      o, lands := env.Decide();
      if lands { bytes, promoted := after, true; }
    }
  }

  // ---- One Secret ----

  // A view from the plan: of this Secret, with data that was expected.
  ghost predicate Foreseen(s: Secret, v: SecretView)
    reads s
  {
    v in s.history && (v.data == Some(s.before) || v.data == Some(s.desired))
  }

  // The view of a Secret that holds what is to be published.
  predicate Published(s: Secret, v: SecretView) {
    v.owned && v.data == Some(s.desired)
  }

  // The last looks at all other Secrets are the same.
  ghost predicate Apart(before: map<nat, nat>, after: map<nat, nat>, secret: nat) {
    forall i :: i != secret ==> (i in before <==> i in after) && (i in before ==> before[i] == after[i])
  }

  // Only this Secret was read, or written.
  ghost predicate OnlyAbout(before: Events, after: Events, secret: nat) {
    before <= after &&
    forall k :: |before| <= k < |after| ==>
      after[k] == Replace(secret) || (after[k].SecretSeen? && after[k].secret == secret)
  }

  // Only Secrets were read, or written.
  ghost predicate SecretsOnly(before: Events, after: Events) {
    before <= after && forall k :: |before| <= k < |after| ==> after[k].Replace? || after[k].SecretSeen?
  }

  // The command that writes a Secret, unless it holds the published data already.
  method WriteSecret(progress: Progress, s: Secret, planned: SecretView) returns (o: Outcome, v: SecretView)
    requires s.Inv() && s.InStep() && Honest(progress.status, s.trail.events) && Foreseen(s, planned)
    modifies progress, s, s.trail, s.env`faults
    ensures s.Inv() && s.InStep() && old(s.history) <= s.history && Apart(old(s.trail.latest), s.trail.latest, s.name)
    ensures Honest(progress.status, s.trail.events) && OnlyAbout(old(s.trail.events), s.trail.events, s.name)
    ensures o.Done? ==> v.uid == planned.uid
    ensures o.Done? ==> progress.status == if planned.data == Some(s.desired) then old(progress.status) else Attempted
  {
    o, v := s.Read();
    if !o.Done? { return; }
    if v.uid != planned.uid || v.version != planned.version || !v.owned { return Failed, v; }
    if planned.data != Some(s.desired) {
      progress.status := Attempted;
      o := s.Replace(v);
      assert Mutating(s.trail.events[|s.trail.events| - 1]);
    }
  }

  // One turn of the loop that writes the Secrets.
  method PublishSecret(progress: Progress, s: Secret, planned: SecretView) returns (o: Outcome, v: SecretView)
    requires s.Inv() && s.InStep() && Honest(progress.status, s.trail.events) && Foreseen(s, planned)
    modifies progress, s, s.trail, s.env`faults
    ensures s.Inv() && s.InStep() && old(s.history) <= s.history && Apart(old(s.trail.latest), s.trail.latest, s.name)
    ensures Honest(progress.status, s.trail.events) && OnlyAbout(old(s.trail.events), s.trail.events, s.name)
    ensures o.Done? ==> Published(s, v) && v in s.history && v.uid == planned.uid
    ensures o.Done? ==> |s.trail.events| > |old(s.trail.events)|
    ensures o.Done? ==> Marked(s.trail.events, |s.trail.events| - 1, s.name, v)
    ensures o.Done? ==> progress.status == old(progress.status) || progress.status.Applied?
  {
    o, v := WriteSecret(progress, s, planned);
    if !o.Done? { return; }
    var uid := v.uid;
    ghost var events := s.trail.events;
    o, v := s.Read();
    HonestStays(progress.status, events, s.trail.events);
    if !o.Done? { return; }
    if v.uid != uid || !v.owned || v.data != Some(s.desired) { return Failed, v; }
    if planned.data != Some(s.desired) { progress.status := Applied; }
  }

  // The Secret is the very one read back.
  method CheckSecret(s: Secret, verified: SecretView) returns (o: Outcome)
    requires s.Inv() && s.InStep() && Published(s, verified)
    modifies s`view, s`history, s.trail, s.env`faults
    ensures s.Inv() && s.InStep() && old(s.history) <= s.history && Apart(old(s.trail.latest), s.trail.latest, s.name)
    ensures Looked(old(s.trail.events), s.trail.events)
    ensures o.Done? ==> SeenSince(s.trail.events, |old(s.trail.events)|, s.name, verified)
  {
    var v;
    o, v := s.Read();
    if o.Done? {
      assert s.trail.events[|old(s.trail.events)|] == SecretSeen(s.name, v);
      if v.uid != verified.uid || v.version != verified.version || !v.owned || v.data != Some(s.desired) {
        o := Failed;
      }
    }
  }

  // ---- The publication ----

  class Publication {
    const env: Environment
    const trail: Trail
    const progress: Progress
    const secrets: seq<Secret>
    const files: seq<LocalFile>
    const consumers: seq<Deployment>

    constructor (env: Environment, trail: Trail, progress: Progress, secrets: seq<Secret>, files: seq<LocalFile>,
                 consumers: seq<Deployment>)
      requires trail.Valid() && trail.events == [] && trail.latest == map[] && progress.status == NotApplied
      requires forall i :: 0 <= i < |secrets| ==>
        secrets[i].env == env && secrets[i].trail == trail && secrets[i].name == i && secrets[i].Inv()
      requires forall i :: 0 <= i < |files| ==>
        files[i].env == env && files[i].trail == trail && files[i].name == i
      requires forall i :: 0 <= i < |consumers| ==>
        consumers[i].env == env && consumers[i].trail == trail && consumers[i].name == i
      ensures this.env == env && this.trail == trail && this.progress == progress
      ensures this.secrets == secrets && this.files == files && this.consumers == consumers
      ensures Inv()
    {
      this.env, this.trail, this.progress := env, trail, progress;
      this.secrets, this.files, this.consumers := secrets, files, consumers;
    }

    // Which objects there are, and that they share the trail.
    predicate Wired() {
      && (forall i :: 0 <= i < |secrets| ==>
            secrets[i].env == env && secrets[i].trail == trail && secrets[i].name == i)
      && (forall i :: 0 <= i < |files| ==> files[i].env == env && files[i].trail == trail && files[i].name == i)
      && (forall i :: 0 <= i < |consumers| ==>
            consumers[i].env == env && consumers[i].trail == trail && consumers[i].name == i)
    }

    ghost predicate Inv()
      reads secrets, trail
    {
      Wired() && (forall i :: 0 <= i < |secrets| ==> secrets[i].Inv()) && InStep()
    }

    // No look at a Secret was at a later version than it has.
    ghost predicate InStep()
      reads secrets, trail
    {
      && trail.Valid()
      && forall i :: 0 <= i < |secrets| && i in trail.latest ==> trail.latest[i] <= secrets[i].view.version
    }

    ghost predicate Truthful()
      reads progress, trail
    {
      Honest(progress.status, trail.events)
    }

    // The first Secrets were read back with the data to be published.
    ghost predicate ReadBack(marks: seq<nat>, verified: seq<SecretView>)
      reads trail
    {
      && |marks| == |verified| <= |secrets|
      && forall i :: 0 <= i < |marks| ==>
           Marked(trail.events, marks[i], i, verified[i]) && Published(secrets[i], verified[i])
    }

    // All Secrets were read back, and every Deployment patched so far was patched after that.
    ghost predicate Ordered(marks: seq<nat>, verified: seq<SecretView>)
      reads trail
    {
      |marks| == |secrets| && ReadBack(marks, verified) && PatchedSafely(trail.events, marks, verified)
    }

    // However far it got: no Deployment was patched, or all were patched in order.
    ghost predicate Orderly(marks: seq<nat>, verified: seq<SecretView>)
      reads trail
    {
      Unpatched(trail.events) || Ordered(marks, verified)
    }

    // A file is only replaced when it was last seen with the bytes the plan was made from, and a Deployment
    // is only patched as the plan found it.
    predicate Meant(e: Event, planned: seq<DeploymentView>) {
      && (e.Promote? ==> e.file < |files| && e.over == Some(files[e.file].before))
      && (e.Patch? ==>
            && e.deployment < |planned| == |consumers|
            && e.base.uid == planned[e.deployment].uid && e.base.version == planned[e.deployment].version
            && e.base.replicas == consumers[e.deployment].replicas)
    }

    ghost predicate Intended(planned: seq<DeploymentView>)
      reads trail
    {
      forall k :: 0 <= k < |trail.events| ==> Meant(trail.events[k], planned)
    }

    lemma IntendedStays(before: Events, planned: seq<DeploymentView>)
      requires before <= trail.events && forall k :: 0 <= k < |before| ==> Meant(before[k], planned)
      requires forall k :: |before| <= k < |trail.events| ==> !trail.events[k].Promote? && !trail.events[k].Patch?
      ensures Intended(planned)
    {
    }

    lemma OrderedStays(before: Events, marks: seq<nat>, verified: seq<SecretView>)
      requires Grew(before, trail.events) && |marks| == |verified| == |secrets|
      requires PatchedSafely(before, marks, verified)
      requires forall i :: 0 <= i < |marks| ==>
        Marked(before, marks[i], i, verified[i]) && Published(secrets[i], verified[i])
      ensures Ordered(marks, verified)
    {
      PatchedSafelyStays(before, trail.events, marks, verified);
      forall i | 0 <= i < |marks| ensures Marked(trail.events, marks[i], i, verified[i]) {
        MarkStays(before, trail.events, marks[i], i, verified[i]);
      }
    }

    // ---- The plan ----

    // Each Secret holds the data it was prepared from, or already what is to be published.
    method PlanSecrets() returns (o: Outcome, planned: seq<SecretView>)
      requires Inv()
      modifies secrets, trail, env`faults
      ensures Inv() && Looked(old(trail.events), trail.events)
      ensures o.Done? ==> Planned(planned)
    {
      planned := [];
      for i := 0 to |secrets|
        invariant Inv() && |planned| == i && Looked(old(trail.events), trail.events)
        invariant forall k :: 0 <= k < i ==> Foreseen(secrets[k], planned[k])
      {
        ghost var events := trail.events;
        var v;
        o, v := PlanSecret(secrets[i]);
        LookedTwice(old(trail.events), events, trail.events);
        if !o.Done? { return; }
        planned := planned + [v];
      }
      o := Done;
    }

    method PlanSecret(s: Secret) returns (o: Outcome, v: SecretView)
      requires Inv() && s in secrets
      modifies s, trail, env`faults
      ensures Inv() && Looked(old(trail.events), trail.events)
      ensures o.Done? ==> Foreseen(s, v)
    {
      o, v := s.Read();
      if o.Done? && (!v.owned || (v.data != Some(s.before) && v.data != Some(s.desired))) { o := Failed; }
    }

    ghost predicate Planned(planned: seq<SecretView>)
      reads secrets
    {
      |planned| == |secrets| && forall i :: 0 <= i < |secrets| ==> Foreseen(secrets[i], planned[i])
    }

    method PlanConsumers() returns (o: Outcome, planned: seq<DeploymentView>)
      requires Inv()
      modifies consumers, trail, env`faults
      ensures Inv() && Looked(old(trail.events), trail.events)
      ensures o.Done? ==> |planned| == |consumers|
    {
      planned := [];
      for i := 0 to |consumers|
        invariant Inv() && |planned| == i && Looked(old(trail.events), trail.events)
      {
        var v;
        o, v := consumers[i].Read();
        if !o.Done? { return; }
        if v.replicas != consumers[i].replicas { return Failed, planned; }
        planned := planned + [v];
      }
      o := Done;
    }

    // ---- The Secrets ----

    // Read back so far; the others still as planned.
    ghost predicate Midway(planned: seq<SecretView>, marks: seq<nat>, verified: seq<SecretView>)
      reads trail, secrets
    {
      && ReadBack(marks, verified) && |planned| == |secrets|
      && forall k :: |verified| <= k < |secrets| ==> Foreseen(secrets[k], planned[k])
    }

    lemma ReadBackStays(before: Events, marks: seq<nat>, verified: seq<SecretView>)
      requires |marks| == |verified| <= |secrets|
      requires forall i :: 0 <= i < |marks| ==>
        Marked(before, marks[i], i, verified[i]) && Published(secrets[i], verified[i])
      requires |marks| < |secrets| && OnlyAbout(before, trail.events, |marks|)
      ensures ReadBack(marks, verified)
    {
      forall i | 0 <= i < |marks| ensures Marked(trail.events, marks[i], i, verified[i]) {
        MarkStays(before, trail.events, marks[i], i, verified[i]);
      }
    }

    method PublishOne(s: Secret, planned: seq<SecretView>, ghost marks: seq<nat>, verified: seq<SecretView>)
      returns (o: Outcome, ghost marks': seq<nat>, verified': seq<SecretView>)
      requires Inv() && Truthful() && Midway(planned, marks, verified)
      requires |verified| < |secrets| && secrets[|verified|] == s
      modifies progress, s, trail, env`faults
      ensures Inv() && Truthful() && OnlyAbout(old(trail.events), trail.events, |verified|)
      ensures o.Done? ==> Midway(planned, marks', verified') && |verified'| == |verified| + 1
      ensures o.Done? ==> progress.status == old(progress.status) || progress.status.Applied?
    {
      var v;
      o, v := PublishSecret(progress, s, planned[|verified|]);
      marks', verified' := marks, verified;
      ReadBackStays(old(trail.events), marks, verified);
      if o.Done? { marks', verified' := marks + [|trail.events| - 1], verified + [v]; }
    }

    method PublishSecrets(planned: seq<SecretView>)
      returns (o: Outcome, ghost marks: seq<nat>, verified: seq<SecretView>)
      requires Inv() && Truthful() && Planned(planned) && Unpatched(trail.events)
      modifies progress, secrets, trail, env`faults
      ensures Inv() && Truthful() && Unpatched(trail.events) && SecretsOnly(old(trail.events), trail.events)
      ensures o.Done? ==> Ordered(marks, verified)
      ensures o.Done? ==> progress.status == old(progress.status) || progress.status.Applied?
    {
      marks, verified := [], [];
      for i := 0 to |secrets|
        invariant Inv() && Truthful() && Unpatched(trail.events) && SecretsOnly(old(trail.events), trail.events)
        invariant progress.status == old(progress.status) || progress.status.Applied?
        invariant |verified| == i && Midway(planned, marks, verified)
      {
        o, marks, verified := PublishOne(secrets[i], planned, marks, verified);
        if !o.Done? { return; }
      }
      o := Done;
    }

    // Every Secret was seen, from `start` on, exactly as it was read back.
    ghost predicate SeenAll(start: nat, n: nat, verified: seq<SecretView>)
      requires n <= |verified|
      reads trail
    {
      forall i :: 0 <= i < n ==> SeenSince(trail.events, start, i, verified[i])
    }

    // `assertPublishedSecrets`: each Secret is the very one read back, unwritten since.
    method CheckSecrets(verified: seq<SecretView>) returns (o: Outcome)
      requires Inv() && |verified| == |secrets|
      requires forall i :: 0 <= i < |secrets| ==> Published(secrets[i], verified[i])
      modifies secrets, trail, env`faults
      ensures Inv() && Looked(old(trail.events), trail.events)
      ensures o.Done? ==> SeenAll(|old(trail.events)|, |secrets|, verified)
    {
      ghost var start := trail.events;
      for i := 0 to |secrets|
        invariant Inv() && Looked(start, trail.events)
        invariant SeenAll(|start|, i, verified)
      {
        ghost var events := trail.events;
        o := CheckOne(secrets[i], verified[i]);
        LookedTwice(start, events, trail.events);
        if !o.Done? { return; }
        SeenStays(|start|, i, verified, events);
      }
      return Done;
    }

    method CheckOne(s: Secret, verified: SecretView) returns (o: Outcome)
      requires Inv() && s in secrets && Published(s, verified)
      modifies s, trail, env`faults
      ensures Inv() && Looked(old(trail.events), trail.events)
      ensures o.Done? ==> SeenSince(trail.events, |old(trail.events)|, s.name, verified)
    {
      o := CheckSecret(s, verified);
    }

    lemma SeenStays(start: nat, n: nat, verified: seq<SecretView>, before: Events)
      requires n <= |verified| && before <= trail.events
      requires forall i :: 0 <= i < n ==> SeenSince(before, start, i, verified[i])
      ensures SeenAll(start, n, verified)
    {
      forall i | 0 <= i < n ensures SeenSince(trail.events, start, i, verified[i]) {
        var r :| start <= r < |before| && before[r] == SecretSeen(i, verified[i]);
        assert trail.events[r] == SecretSeen(i, verified[i]);
      }
    }

    // ---- The local files ----

    method CheckFiles() returns (o: Outcome)
      requires Inv()
      modifies files, env`faults
      ensures Inv()
    {
      for i := 0 to |files|
        invariant Inv()
      {
        var bytes;
        o, bytes := files[i].Read();
        if !o.Done? { return; }
        if bytes != files[i].before { return Failed; }
      }
      return Done;
    }

    // The first files that were to change were changed.
    ghost predicate Promoted(n: nat)
      requires n <= |files|
      reads files
    {
      forall i :: 0 <= i < n ==> files[i].before == files[i].after || files[i].promoted
    }

    method PromoteFiles(ghost planned: seq<DeploymentView>) returns (o: Outcome)
      requires Inv() && Truthful() && Intended(planned)
      modifies progress, files, trail, env`faults
      ensures Inv() && Truthful() && Grew(old(trail.events), trail.events) && Intended(planned)
      ensures o.Done? ==> Promoted(|files|)
      ensures o.Done? ==> progress.status == old(progress.status) || progress.status.Applied?
    {
      for i := 0 to |files|
        invariant Inv() && Truthful() && Grew(old(trail.events), trail.events) && Intended(planned)
        invariant progress.status == old(progress.status) || progress.status.Applied?
        invariant Promoted(i)
      {
        ghost var events := trail.events;
        o := PromoteFile(files[i], planned);
        GrewTwice(old(trail.events), events, trail.events);
        if !o.Done? { return; }
      }
      return Done;
    }

    // One file, unless it is to stay as it is.
    method PromoteFile(f: LocalFile, ghost planned: seq<DeploymentView>) returns (o: Outcome)
      requires Inv() && Truthful() && Intended(planned) && f in files
      modifies progress, f, trail, env`faults
      ensures Inv() && Truthful() && Grew(old(trail.events), trail.events) && Intended(planned)
      ensures o.Done? ==> f.before == f.after || f.promoted
      ensures o.Done? ==> progress.status == old(progress.status) || progress.status.Applied?
    {
      var bytes;
      o, bytes := f.Read();
      if !o.Done? { return; }
      if bytes != f.before { return Failed; }
      if f.before != f.after {
        progress.status := Attempted;
        o := f.Promote();
        assert Mutating(trail.events[|trail.events| - 1]);
        if !o.Done? { return; }
        progress.status := Applied;
      }
    }

    // ---- The Deployments ----

    lemma CheckedForPatch(start: Events, marks: seq<nat>, verified: seq<SecretView>, patch: Event)
      requires Ordered(marks, verified) && Looked(start, trail.events) && SeenAll(|start|, |secrets|, verified)
      requires patch.Patch? && forall i :: 0 <= i < |marks| ==> marks[i] < |start|
      ensures PatchedSafely(trail.events + [patch], marks, verified)
      ensures forall i :: 0 <= i < |marks| ==> Marked(trail.events + [patch], marks[i], i, verified[i])
    {
      var after := trail.events + [patch];
      forall p, i | 0 <= p < |after| && after[p].Patch? && 0 <= i < |marks|
        ensures CheckedFor(after, p, marks[i], i, verified[i])
      {
        if p < |trail.events| {
          assert CheckedFor(trail.events, p, marks[i], i, verified[i]);
          var r :| marks[i] < r < p && trail.events[r] == SecretSeen(i, verified[i]) &&
            forall k :: r < k < p ==> !Mutating(trail.events[k]);
          assert after[r] == SecretSeen(i, verified[i]);
        } else {
          assert SeenSince(trail.events, |start|, i, verified[i]);
          var r :| |start| <= r < |trail.events| && trail.events[r] == SecretSeen(i, verified[i]);
          assert after[r] == SecretSeen(i, verified[i]);
        }
      }
    }

    // `kubectl patch`, straight after the Secrets were checked.
    method PatchChecked(d: Deployment, current: DeploymentView, ghost start: Events, ghost marks: seq<nat>,
                        ghost verified: seq<SecretView>, ghost planned: seq<DeploymentView>)
      returns (o: Outcome)
      requires Inv() && d in consumers && Ordered(marks, verified)
      requires Intended(planned) && Meant(Patch(d.name, current), planned)
      requires Looked(start, trail.events) && SeenAll(|start|, |secrets|, verified)
      requires forall i :: 0 <= i < |marks| ==> marks[i] < |start|
      modifies progress, trail, d, env`faults
      ensures Inv() && Truthful() && Ordered(marks, verified) && Intended(planned)
      ensures trail.events == old(trail.events) + [Patch(d.name, current)]
      ensures o.Done? ==> progress.status == old(progress.status) || progress.status.Applied?
    {
      CheckedForPatch(start, marks, verified, Patch(d.name, current));
      progress.status := Attempted;
      o := d.Patch(current);
      assert Mutating(trail.events[|trail.events| - 1]);
      if o.Done? { progress.status := Applied; }
    }

    // The Deployment is restarted on the published data, if it does not carry its revision yet.
    method Restart(d: Deployment, planned: seq<DeploymentView>, ghost marks: seq<nat>, verified: seq<SecretView>)
      returns (o: Outcome, current: DeploymentView)
      requires Inv() && Truthful() && d in consumers && Ordered(marks, verified)
      requires |planned| == |consumers| && Intended(planned)
      modifies progress, trail, secrets, d, env`faults
      ensures Inv() && Truthful() && Ordered(marks, verified) && Intended(planned)
      ensures old(trail.events) <= trail.events
      ensures o.Done? ==> current.uid == planned[d.name].uid
      ensures o.Done? ==> if planned[d.name].revision == Some(d.revision)
                          then Looked(old(trail.events), trail.events)
                          else |trail.events| > 0 && trail.events[|trail.events| - 1] == Patch(d.name, current)
      ensures o.Done? ==> progress.status == old(progress.status) || progress.status.Applied?
    {
      ghost var start := trail.events;
      o, current := d.Read();
      HonestStays(progress.status, start, trail.events);
      OrderedStays(start, marks, verified);
      IntendedStays(start, planned);
      if !o.Done? { return; }
      var plan := planned[d.name];
      if current.uid != plan.uid || current.version != plan.version || current.replicas != d.replicas {
        return Failed, current;
      }
      ghost var events := trail.events;
      o := CheckSecrets(verified);
      HonestStays(progress.status, events, trail.events);
      OrderedStays(events, marks, verified);
      IntendedStays(start, planned);
      if !o.Done? || plan.revision == Some(d.revision) { return; }
      o := PatchChecked(d, current, events, marks, verified, planned);
    }

    // The Deployment is seen to be current, and after that every Secret is checked once more.
    method Observe(d: Deployment, uid: nat, planned: seq<DeploymentView>, ghost marks: seq<nat>,
                   verified: seq<SecretView>)
      returns (o: Outcome, ghost at: nat)
      requires Inv() && Truthful() && d in consumers && Ordered(marks, verified) && Intended(planned)
      modifies trail, secrets, d, env`faults
      ensures Inv() && Truthful() && Ordered(marks, verified) && Intended(planned)
      ensures at == |old(trail.events)| && old(trail.events) <= trail.events
      ensures o.Done? ==> at < |trail.events| && SawCurrent(trail.events[at], d, uid)
      ensures o.Done? ==> SeenAll(at + 1, |secrets|, verified)
    {
      ghost var events := trail.events;
      at := |events|;
      var observed;
      o, observed := d.Read();
      HonestStays(progress.status, events, trail.events);
      OrderedStays(events, marks, verified);
      IntendedStays(events, planned);
      if !o.Done? { return; }
      if observed.uid != uid || !Current(d, observed) { return Failed, at; }
      assert SawCurrent(trail.events[at], d, uid);
      events := trail.events;
      o := CheckSecrets(verified);
      assert trail.events[at] == events[at];
      HonestStays(progress.status, events, trail.events);
      OrderedStays(events, marks, verified);
      IntendedStays(events, planned);
    }

    // One turn of the loop that rolls the Deployments out.
    method Rollout(d: Deployment, planned: seq<DeploymentView>, ghost marks: seq<nat>, verified: seq<SecretView>)
      returns (o: Outcome, ghost at: nat)
      requires Inv() && Truthful() && d in consumers && Ordered(marks, verified)
      requires |planned| == |consumers| && Intended(planned)
      modifies progress, trail, secrets, d, env`faults
      ensures Inv() && Truthful() && Ordered(marks, verified) && Intended(planned)
      ensures o.Done? ==>
        |old(trail.events)| <= at < |trail.events| && SawCurrent(trail.events[at], d, planned[d.name].uid)
      ensures o.Done? ==> SeenAll(at + 1, |secrets|, verified)
      ensures o.Done? ==> progress.status == old(progress.status) || progress.status.Applied?
    {
      at := 0;
      var current;
      o, current := Restart(d, planned, marks, verified);
      if !o.Done? { return; }
      var lands;
      o, lands := env.Decide(); // `kubectl rollout status`
      if !o.Done? { return; }
      o, at := Observe(d, current.uid, planned, marks, verified);
    }

    method Rollouts(planned: seq<DeploymentView>, ghost marks: seq<nat>, verified: seq<SecretView>)
      returns (o: Outcome)
      requires Inv() && Truthful() && |planned| == |consumers| && Ordered(marks, verified) && Intended(planned)
      modifies progress, trail, secrets, consumers, env`faults
      ensures Inv() && Truthful() && Ordered(marks, verified) && Intended(planned)
      ensures o.Done? ==> progress.status == old(progress.status) || progress.status.Applied?
    {
      for i := 0 to |consumers|
        invariant Inv() && Truthful() && Ordered(marks, verified) && Intended(planned)
        invariant progress.status == old(progress.status) || progress.status.Applied?
      {
        ghost var at;
        o, at := Rollout(consumers[i], planned, marks, verified);
        if !o.Done? { return; }
      }
      return Done;
    }

    // ---- The end ----

    // The login was verified at this position, after every command.
    ghost predicate Concluded(login: nat)
      reads trail
    {
      login < |trail.events| && trail.events[login] == LoginVerified && Idle(trail.events, login)
    }

    // Every Secret held the published data, without a write in between, from its read-back to a look
    // after the last command and after the login was verified.
    ghost predicate Held(marks: seq<nat>, verified: seq<SecretView>, login: nat)
      reads trail
    {
      && Ordered(marks, verified) && (forall i :: 0 <= i < |marks| ==> marks[i] < login)
      && Concluded(login) && SeenAll(login + 1, |secrets|, verified)
    }

    // So were the Deployments, each of them current.
    ghost predicate Observed(n: nat, login: nat, planned: seq<DeploymentView>)
      requires n <= |consumers|
      reads trail
    {
      |planned| == |consumers| &&
      forall i :: 0 <= i < n ==> ObservedSince(trail.events, login + 1, consumers[i], planned[i].uid)
    }

    lemma ObservedStays(n: nat, login: nat, planned: seq<DeploymentView>, before: Events)
      requires n <= |consumers| == |planned| && before <= trail.events
      requires forall i :: 0 <= i < n ==> ObservedSince(before, login + 1, consumers[i], planned[i].uid)
      ensures Observed(n, login, planned)
    {
      forall i | 0 <= i < n ensures ObservedSince(trail.events, login + 1, consumers[i], planned[i].uid) {
        var r :| login + 1 <= r < |before| && SawCurrent(before[r], consumers[i], planned[i].uid);
        assert SawCurrent(trail.events[r], consumers[i], planned[i].uid);
      }
    }

    method VerifyConsumers(planned: seq<DeploymentView>, ghost login: nat)
      returns (o: Outcome, observed: seq<DeploymentView>)
      requires Inv() && |planned| == |consumers| && Concluded(login)
      modifies trail, consumers, env`faults
      ensures Inv() && Looked(old(trail.events), trail.events) && Concluded(login)
      ensures o.Done? ==> |observed| == |consumers| && Observed(|consumers|, login, planned)
      ensures o.Done? ==> forall i :: 0 <= i < |consumers| ==> Current(consumers[i], observed[i])
    {
      observed := [];
      for i := 0 to |consumers|
        invariant Inv() && |observed| == i && Looked(old(trail.events), trail.events)
        invariant Concluded(login) && Observed(i, login, planned)
        invariant forall k :: 0 <= k < i ==> Current(consumers[k], observed[k])
      {
        ghost var events := trail.events;
        var v;
        o, v := consumers[i].Read();
        if !o.Done? { return; }
        if v.uid != planned[i].uid || !Current(consumers[i], v) { return Failed, observed; }
        ObservedStays(i, login, planned, events);
        assert SawCurrent(trail.events[|events|], consumers[i], planned[i].uid);
        observed := observed + [v];
      }
      o := Done;
    }

    method VerifySecrets(ghost marks: seq<nat>, verified: seq<SecretView>, ghost login: nat) returns (o: Outcome)
      requires Inv() && Truthful() && Ordered(marks, verified)
      requires Concluded(login) && forall i :: 0 <= i < |marks| ==> marks[i] < login
      modifies trail, secrets, env`faults
      ensures Inv() && Truthful() && Ordered(marks, verified) && Concluded(login)
      ensures Looked(old(trail.events), trail.events)
      ensures o.Done? ==> Held(marks, verified, login)
    {
      ghost var start := trail.events;
      o := CheckSecrets(verified);
      HonestStays(progress.status, start, trail.events);
      OrderedStays(start, marks, verified);
      if o.Done? { SeenSooner(|start|, login + 1, verified); }
    }

    // The final look at the Secrets and the Deployments.
    method Verify(planned: seq<DeploymentView>, ghost marks: seq<nat>, verified: seq<SecretView>, ghost login: nat)
      returns (o: Outcome, observed: seq<DeploymentView>)
      requires Inv() && Truthful() && |planned| == |consumers| && Ordered(marks, verified)
      requires Concluded(login) && forall i :: 0 <= i < |marks| ==> marks[i] < login
      modifies trail, secrets, consumers, env`faults
      ensures Inv() && Truthful() && Ordered(marks, verified) && Looked(old(trail.events), trail.events)
      ensures o.Done? ==> Held(marks, verified, login) && |observed| == |consumers|
      ensures o.Done? ==> Observed(|consumers|, login, planned)
      ensures o.Done? ==> forall i :: 0 <= i < |consumers| ==> Current(consumers[i], observed[i])
    {
      observed := [];
      ghost var start := trail.events;
      o := VerifySecrets(marks, verified, login);
      if !o.Done? { return; }
      ghost var events := trail.events;
      o, observed := VerifyConsumers(planned, login);
      LookedTwice(start, events, trail.events);
      HonestStays(progress.status, events, trail.events);
      OrderedStays(events, marks, verified);
      SeenStays(login + 1, |secrets|, verified, events);
    }

    lemma SeenSooner(late: nat, soon: nat, verified: seq<SecretView>)
      requires soon <= late && |verified| == |secrets| && SeenAll(late, |secrets|, verified)
      ensures SeenAll(soon, |secrets|, verified)
    {
      forall i | 0 <= i < |secrets| ensures SeenSince(trail.events, soon, i, verified[i]) {
        assert SeenSince(trail.events, late, i, verified[i]);
      }
    }

    // ---- `publishRuntimeInputs` ----

    // The Secrets and the files.
    method Supply(planned: seq<SecretView>, ghost consumersPlanned: seq<DeploymentView>)
      returns (o: Outcome, ghost marks: seq<nat>, verified: seq<SecretView>)
      requires Inv() && Truthful() && Planned(planned) && Unpatched(trail.events) && Intended(consumersPlanned)
      modifies progress, trail, secrets, files, env`faults
      ensures Inv() && Truthful() && Unpatched(trail.events) && Intended(consumersPlanned)
      ensures o.Done? ==> Ordered(marks, verified) && Promoted(|files|)
      ensures o.Done? ==> progress.status == old(progress.status) || progress.status.Applied?
    {
      marks, verified := [], [];
      o := CheckFiles();
      if !o.Done? { return; }
      ghost var start := trail.events;
      o, marks, verified := PublishSecrets(planned);
      IntendedStays(start, consumersPlanned);
      if !o.Done? { return; }
      ghost var events := trail.events;
      o := CheckSecrets(verified);
      HonestStays(progress.status, events, trail.events);
      OrderedStays(events, marks, verified);
      IntendedStays(events, consumersPlanned);
      if !o.Done? { return; }
      events := trail.events;
      o := PromoteFiles(consumersPlanned);
      OrderedStays(events, marks, verified);
    }

    // The Deployments, the login and the final look.
    method Deliver(planned: seq<DeploymentView>, ghost marks: seq<nat>, verified: seq<SecretView>)
      returns (o: Outcome, observed: seq<DeploymentView>, ghost login: nat)
      requires Inv() && Truthful() && |planned| == |consumers| && Ordered(marks, verified) && Intended(planned)
      modifies progress, trail, secrets, consumers, env`faults
      ensures Inv() && Truthful() && Ordered(marks, verified) && Intended(planned)
      ensures o.Done? ==> Held(marks, verified, login) && |observed| == |consumers|
      ensures o.Done? ==> Observed(|consumers|, login, planned)
      ensures o.Done? ==> forall i :: 0 <= i < |consumers| ==> Current(consumers[i], observed[i])
      ensures o.Done? ==> progress.status == old(progress.status) || progress.status.Applied?
    {
      observed, login := [], 0;
      o := Rollouts(planned, marks, verified);
      if !o.Done? { return; }
      var lands;
      o, lands := env.Decide(); // `verifyLoginAfterRollout`
      if !o.Done? { return; }
      ghost var events := trail.events;
      login := |events|;
      trail.Note(LoginVerified);
      HonestStays(progress.status, events, trail.events);
      OrderedStays(events, marks, verified);
      IntendedStays(events, planned);
      events := trail.events;
      o, observed := Verify(planned, marks, verified, login);
      IntendedStays(events, planned);
    }

    // Whatever becomes of it, the receipt is true and no Deployment was patched before its Secrets
    // were in place. If it passes, the Secrets held from read-back to the end, the files were promoted
    // and the Deployments were seen to be current.
    method Publish(login: bool, apply: bool)
      returns (o: Outcome, ghost marks: seq<nat>, verified: seq<SecretView>, observed: seq<DeploymentView>,
               ghost end: nat, ghost intended: seq<DeploymentView>)
      requires Inv() && Truthful() && trail.events == []
      modifies progress, trail, secrets, files, consumers, env`faults
      ensures Inv() && Truthful() && Orderly(marks, verified) && Intended(intended)
      ensures !apply || !login ==> Idle(trail.events, 0)
      ensures o.Done? && apply ==> Held(marks, verified, end) && Promoted(|files|)
      ensures o.Done? && apply ==> |observed| == |consumers| && Observed(|consumers|, end, intended)
      ensures o.Done? && apply ==> forall i :: 0 <= i < |consumers| ==> Current(consumers[i], observed[i])
      ensures o.Done? ==> progress.status == old(progress.status) || progress.status.Applied?
    {
      marks, verified, observed, end, intended := [], [], [], 0, [];
      if apply && !login { return Failed, marks, verified, observed, end, intended; }
      var planned, plannedConsumers;
      o, planned, plannedConsumers := Plan();
      intended := plannedConsumers;
      if !o.Done? || !apply { return; }
      o, marks, verified := Supply(planned, plannedConsumers);
      if !o.Done? { return; }
      o, observed, end := Deliver(plannedConsumers, marks, verified);
    }

    method Plan() returns (o: Outcome, planned: seq<SecretView>, consumersPlanned: seq<DeploymentView>)
      requires Inv() && Truthful()
      modifies trail, secrets, consumers, env`faults
      ensures Inv() && Truthful() && Looked(old(trail.events), trail.events)
      ensures o.Done? ==> Planned(planned) && |consumersPlanned| == |consumers|
    {
      consumersPlanned := [];
      ghost var start := trail.events;
      o, planned := PlanSecrets();
      HonestStays(progress.status, start, trail.events);
      if !o.Done? { return; }
      ghost var events := trail.events;
      o, consumersPlanned := PlanConsumers();
      HonestStays(progress.status, events, trail.events);
      LookedTwice(start, events, trail.events);
    }
  }

  // What the look after the login proves of a Secret: it found exactly the view of the read-back, owned and
  // with the published data; every look in between found that version too, which counts the writes, so
  // nobody wrote it meanwhile; and no command followed.
  lemma HeldMeans(p: Publication, marks: seq<nat>, verified: seq<SecretView>, login: nat, i: nat) returns (r: nat)
    requires p.Inv() && p.Held(marks, verified, login) && i < |p.secrets|
    ensures marks[i] < login < r < |p.trail.events|
    ensures verified[i].owned && verified[i].data == Some(p.secrets[i].desired)
    ensures p.trail.events[marks[i]] == p.trail.events[r] == SecretSeen(i, verified[i])
    ensures forall k :: marks[i] <= k <= r && Sees(p.trail.events[k], i) ==>
      p.trail.events[k].secretView.version == verified[i].version
    ensures forall k :: login <= k < |p.trail.events| ==> !Mutating(p.trail.events[k])
  {
    var events := p.trail.events;
    assert SeenSince(events, login + 1, i, verified[i]);
    r :| login + 1 <= r < |events| && events[r] == SecretSeen(i, verified[i]);
    assert Sees(events[marks[i]], i) && Sees(events[r], i);
    forall k | marks[i] <= k <= r && Sees(events[k], i) ensures events[k].secretView.version == verified[i].version {
      assert InTurn(events, p.trail.latest, marks[i], k) && InTurn(events, p.trail.latest, k, r);
    }
  }
}
